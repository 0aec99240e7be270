/** The union of the platforms' dependency graphs (scripts/release/generate-sbom.py). A record's body
    is everything in it but its scope. */
module Sbom {
  import opened Basics

  type Ref = string
  type Body = string

  datatype Scope = Excluded | Optional | Required | Unknown(text: string)
  datatype Record = Record(ref: Ref, body: Body, scope: Option<Scope>)
  datatype Dependency = Dependency(ref: Ref, dependsOn: seq<Ref>)
  datatype Document = Document(root: Record, components: seq<Record>, dependencies: seq<Dependency>)
  /** One platform: the app's graph and those of the programs shipped beside it. */
  datatype Target = Target(app: Document, shipped: seq<Document>)

  datatype Component = Component(body: Body, scope: Scope)
  datatype Bom = Bom(root: Record, components: map<Ref, Component>, dependencies: map<Ref, set<Ref>>)

  datatype Error = RootsDiffer | InvalidScope | Conflict | Dangling

  function ScopeOf(r: Record): Scope { if r.scope.None? then Required else r.scope.value }

  function Rank(s: Scope): int {
    match s
    case Excluded => 0
    case Optional => 1
    case Required => 2
    case Unknown(_) => -1
  }

  predicate ValidScope(r: Record) { Rank(ScopeOf(r)) >= 0 }

  // ----- what there is to merge

  function ShippedRoots(t: Target): seq<Record> {
    seq(|t.shipped|, i requires 0 <= i < |t.shipped| => t.shipped[i].root)
  }

  function Graphs(t: Target): seq<Document> { [t.app] + t.shipped }

  function RecordsIn(graphs: seq<Document>): seq<Record> {
    if graphs == [] then [] else RecordsIn(graphs[..|graphs| - 1]) + graphs[|graphs| - 1].components
  }

  function DependenciesIn(graphs: seq<Document>): seq<Dependency> {
    if graphs == [] then [] else DependenciesIn(graphs[..|graphs| - 1]) + graphs[|graphs| - 1].dependencies
  }

  function RecordsOf(t: Target): seq<Record> { RecordsIn(Graphs(t)) }

  function DependenciesOf(t: Target): seq<Dependency> { DependenciesIn(Graphs(t)) }

  function Roots(targets: seq<Target>): seq<Record> {
    if targets == [] then [] else Roots(targets[..|targets| - 1]) + ShippedRoots(targets[|targets| - 1])
  }

  function Records(targets: seq<Target>): seq<Record> {
    if targets == [] then [] else Records(targets[..|targets| - 1]) + RecordsOf(targets[|targets| - 1])
  }

  function Dependencies(targets: seq<Target>): seq<Dependency> {
    if targets == [] then [] else Dependencies(targets[..|targets| - 1]) + DependenciesOf(targets[|targets| - 1])
  }

  // ----- what the merge must be

  /** No two records of one reference differ outside their scope. */
  ghost predicate Agree(records: seq<Record>) {
    forall a, b :: a in records && b in records && a.ref == b.ref ==> a.body == b.body
  }

  ghost predicate AllValid(records: seq<Record>) { forall r :: r in records ==> ValidScope(r) }

  /** Each reference's body, with the largest scope of all its occurrences. */
  ghost predicate Merges(components: map<Ref, Component>, records: seq<Record>) {
    && (forall r :: r in records ==>
          r.ref in components && components[r.ref].body == r.body && Rank(ScopeOf(r)) <= Rank(components[r.ref].scope))
    && (forall ref :: ref in components ==>
          exists r :: r in records && r.ref == ref && ScopeOf(r) == components[ref].scope)
  }

  /** The roots, each as a required component. */
  ghost predicate Promotes(roots: map<Ref, Component>, records: seq<Record>) {
    && (forall r :: r in records ==> r.ref in roots && roots[r.ref] == Component(r.body, Required))
    && (forall ref :: ref in roots ==> exists r :: r in records && r.ref == ref)
  }

  ghost predicate HasRef(dependencies: seq<Dependency>, ref: Ref) {
    exists d :: d in dependencies && d.ref == ref
  }

  ghost predicate HasEdge(dependencies: seq<Dependency>, ref: Ref, to: Ref) {
    exists d :: d in dependencies && d.ref == ref && to in d.dependsOn
  }

  /** Each reference's edges are the union of those it has anywhere. */
  ghost predicate Unites(edges: map<Ref, set<Ref>>, dependencies: seq<Dependency>) {
    && (forall ref :: ref in edges <==> HasRef(dependencies, ref))
    && (forall ref, to :: ref in edges ==> (to in edges[ref] <==> HasEdge(dependencies, ref, to)))
  }

  ghost predicate SameApps(targets: seq<Target>) {
    forall i, j :: 0 <= i < |targets| && 0 <= j < |targets| ==> targets[i].app.root == targets[j].app.root
  }

  /** A reference the result has. */
  ghost predicate Defined(targets: seq<Target>, ref: Ref) {
    || (exists r :: r in Records(targets) && r.ref == ref)
    || (exists r :: r in Roots(targets) && r.ref == ref)
    || (targets != [] && targets[0].app.root.ref == ref)
  }

  ghost predicate NoDangling(targets: seq<Target>) {
    forall d :: d in Dependencies(targets) ==>
      Defined(targets, d.ref) && forall to :: to in d.dependsOn ==> Defined(targets, to)
  }

  ghost predicate Mergeable(targets: seq<Target>) {
    && SameApps(targets) && Agree(Roots(targets))
    && AllValid(Records(targets)) && Agree(Records(targets)) && NoDangling(targets)
  }

  /** The merged graph: shipped roots replace what they are also linked as. */
  ghost predicate Describes(bom: Bom, targets: seq<Target>) {
    targets != [] && bom.root == targets[0].app.root && Unites(bom.dependencies, Dependencies(targets)) &&
    exists components, roots ::
      Merges(components, Records(targets)) && Promotes(roots, Roots(targets)) && bom.components == components + roots
  }

  // ----- the merge

  lemma MergeStep(components: map<Ref, Component>, records: seq<Record>, r: Record, scope: Scope)
    requires Merges(components, records) && AllValid(records) && ValidScope(r)
    requires r.ref in components ==> components[r.ref].body == r.body
    requires scope == if r.ref in components && Rank(ScopeOf(r)) < Rank(components[r.ref].scope)
                      then components[r.ref].scope else ScopeOf(r)
    ensures Merges(components[r.ref := Component(r.body, scope)], records + [r])
  {
    var after := components[r.ref := Component(r.body, scope)];
    var more := records + [r];
    forall ref | ref in after ensures exists x :: x in more && x.ref == ref && ScopeOf(x) == after[ref].scope {
      if ref == r.ref && scope == ScopeOf(r) {
        assert r in more;
      } else {
        var x :| x in records && x.ref == ref && ScopeOf(x) == components[ref].scope;
        assert x in more;
      }
    }
  }

  lemma AgreeStep(components: map<Ref, Component>, records: seq<Record>, r: Record)
    requires Merges(components, records) && Agree(records)
    ensures Agree(records + [r]) <==> (r.ref in components ==> components[r.ref].body == r.body)
  {
    if r.ref in components {
      var x :| x in records && x.ref == r.ref && ScopeOf(x) == components[r.ref].scope;
      assert x in records + [r] && r in records + [r];
    }
  }

  /** Adds the records of one platform. */
  method AddRecords(components: map<Ref, Component>, records: seq<Record>, ghost before: seq<Record>)
    returns (r: Result<map<Ref, Component>, Error>)
    requires Merges(components, before) && AllValid(before) && Agree(before)
    ensures r.Ok? <==> AllValid(before + records) && Agree(before + records)
    ensures r.Ok? ==> Merges(r.value, before + records)
  {
    hide Merges;
    hide Agree;
    var merged := components;
    assert before + records[..0] == before;
    for i := 0 to |records|
      invariant Merges(merged, before + records[..i]) && AllValid(before + records[..i]) && Agree(before + records[..i])
    {
      ghost var seen := before + records[..i];
      var record := records[i];
      assert seen + [record] == before + records[..i + 1];
      assert record in before + records;
      var scope := ScopeOf(record);
      if Rank(scope) < 0 { return Err(InvalidScope); }
      AgreeStep(merged, seen, record);
      if record.ref in merged {
        if merged[record.ref].body != record.body {
          AgreeLess(before + records, seen + [record]);
          return Err(Conflict);
        }
        if Rank(scope) < Rank(merged[record.ref].scope) { scope := merged[record.ref].scope; }
      }
      MergeStep(merged, seen, record, scope);
      merged := merged[record.ref := Component(record.body, scope)];
    }
    assert records[..|records|] == records;
    r := Ok(merged);
  }

  lemma AgreeLess(all: seq<Record>, some: seq<Record>)
    requires forall r :: r in some ==> r in all
    ensures Agree(all) ==> Agree(some)
    ensures AllValid(all) ==> AllValid(some)
  {}

  lemma PromoteStep(roots: map<Ref, Component>, records: seq<Record>, r: Record)
    requires Promotes(roots, records) && Agree(records)
    ensures Agree(records + [r]) <==> (r.ref in roots ==> roots[r.ref] == Component(r.body, Required))
    ensures Agree(records + [r]) ==> Promotes(roots[r.ref := Component(r.body, Required)], records + [r])
  {
    var more := records + [r];
    assert r in more;
    forall x | x in records ensures x in more {}
    if r.ref in roots {
      var x :| x in records && x.ref == r.ref;
    }
    if Agree(more) {
      var after := roots[r.ref := Component(r.body, Required)];
      forall ref | ref in after ensures exists x :: x in more && x.ref == ref {
        if ref != r.ref {
          var x :| x in records && x.ref == ref;
          assert x in more;
        }
      }
    }
  }

  method AddRoots(roots: map<Ref, Component>, records: seq<Record>, ghost before: seq<Record>)
    returns (r: Result<map<Ref, Component>, Error>)
    requires Promotes(roots, before) && Agree(before)
    ensures r.Ok? <==> Agree(before + records)
    ensures r.Ok? ==> Promotes(r.value, before + records)
  {
    hide Promotes;
    hide Agree;
    var all := roots;
    assert before + records[..0] == before;
    for i := 0 to |records|
      invariant Promotes(all, before + records[..i]) && Agree(before + records[..i])
    {
      ghost var seen := before + records[..i];
      assert seen + [records[i]] == before + records[..i + 1];
      var root := Component(records[i].body, Required);
      PromoteStep(all, seen, records[i]);
      if records[i].ref in all && all[records[i].ref] != root {
        AgreeLess(before + records, seen + [records[i]]);
        return Err(RootsDiffer);
      }
      all := all[records[i].ref := root];
    }
    assert records[..|records|] == records;
    r := Ok(all);
  }

  lemma UniteStep(edges: map<Ref, set<Ref>>, dependencies: seq<Dependency>, d: Dependency, to: set<Ref>)
    requires Unites(edges, dependencies)
    requires to == (if d.ref in edges then edges[d.ref] else {}) + set x | x in d.dependsOn
    ensures Unites(edges[d.ref := to], dependencies + [d])
  {
    var more, after := dependencies + [d], edges[d.ref := to];
    assert d in more;
    forall x | x in dependencies ensures x in more {}
    forall ref ensures ref in after <==> HasRef(more, ref) {
      assert HasRef(dependencies, ref) ==> HasRef(more, ref);
    }
    forall ref, y | ref in after ensures y in after[ref] <==> HasEdge(more, ref, y) {
      if HasEdge(more, ref, y) {
        var x :| x in more && x.ref == ref && y in x.dependsOn;
        if x in dependencies { assert HasEdge(dependencies, ref, y); }
      }
      if ref == d.ref && y in d.dependsOn { assert HasEdge(more, ref, y); }
      if ref in edges && HasEdge(dependencies, ref, y) {
        var x :| x in dependencies && x.ref == ref && y in x.dependsOn;
        assert x in more;
      }
    }
  }

  method AddDependencies(edges: map<Ref, set<Ref>>, dependencies: seq<Dependency>, ghost before: seq<Dependency>)
    returns (all: map<Ref, set<Ref>>)
    requires Unites(edges, before)
    ensures Unites(all, before + dependencies)
  {
    hide Unites;
    all := edges;
    assert before + dependencies[..0] == before;
    for i := 0 to |dependencies|
      invariant Unites(all, before + dependencies[..i])
    {
      var d := dependencies[i];
      var to := (if d.ref in all then all[d.ref] else {}) + set x | x in d.dependsOn;
      UniteStep(all, before + dependencies[..i], d, to);
      assert before + dependencies[..i] + [d] == before + dependencies[..i + 1];
      all := all[d.ref := to];
    }
    assert dependencies[..|dependencies|] == dependencies;
  }

  lemma {:induction false} PartsGrow(targets: seq<Target>, i: nat)
    requires i <= |targets|
    ensures forall r :: r in Roots(targets[..i]) ==> r in Roots(targets)
    ensures forall r :: r in Records(targets[..i]) ==> r in Records(targets)
    decreases |targets|
  {
    hide ShippedRoots;
    hide RecordsOf;
    if i == |targets| {
      assert targets[..i] == targets;
    } else {
      PartsGrow(targets[..|targets| - 1], i);
      assert targets[..|targets| - 1][..i] == targets[..i];
    }
  }

  lemma SomePartsFail(targets: seq<Target>, i: nat)
    requires i <= |targets|
    ensures Mergeable(targets) ==>
      Agree(Roots(targets[..i])) && Agree(Records(targets[..i])) && AllValid(Records(targets[..i]))
  {
    hide Agree;
    hide AllValid;
    PartsGrow(targets, i);
    AgreeLess(Roots(targets), Roots(targets[..i]));
    AgreeLess(Records(targets), Records(targets[..i]));
  }

  lemma FirstParts(targets: seq<Target>, i: nat)
    requires i < |targets|
    ensures Roots(targets[..i + 1]) == Roots(targets[..i]) + ShippedRoots(targets[i])
    ensures Records(targets[..i + 1]) == Records(targets[..i]) + RecordsOf(targets[i])
    ensures Dependencies(targets[..i + 1]) == Dependencies(targets[..i]) + DependenciesOf(targets[i])
  {
    assert targets[..i + 1][..i] == targets[..i];
  }

  /** The merge succeeds exactly when every root and every record agrees with the others of its
      reference, every scope is valid and nothing dangles; and then it is the merged graph. */
  method Merge(targets: seq<Target>) returns (r: Result<Bom, Error>)
    requires targets != []
    ensures r.Ok? <==> Mergeable(targets)
    ensures r.Ok? ==> Describes(r.value, targets)
  {
    hide Agree;
    hide AllValid;
    hide Merges;
    hide Promotes;
    hide Unites;
    hide NoDangling;
    hide Roots;
    hide Records;
    hide Dependencies;
    var components: map<Ref, Component> := map[];
    var roots: map<Ref, Component> := map[];
    var edges: map<Ref, set<Ref>> := map[];
    var root := targets[0].app.root;
    NothingMerged(targets);
    for i := 0 to |targets|
      invariant forall j :: 0 <= j < i ==> targets[j].app.root == root
      invariant Promotes(roots, Roots(targets[..i])) && Agree(Roots(targets[..i]))
      invariant Merges(components, Records(targets[..i]))
      invariant AllValid(Records(targets[..i])) && Agree(Records(targets[..i]))
      invariant Unites(edges, Dependencies(targets[..i]))
    {
      FirstParts(targets, i);
      SomePartsFail(targets, i + 1);
      if targets[i].app.root != root { return Err(RootsDiffer); }
      var added := AddRoots(roots, ShippedRoots(targets[i]), Roots(targets[..i]));
      if added.Err? { return Err(added.error); }
      roots := added.value;
      var merged := AddRecords(components, RecordsOf(targets[i]), Records(targets[..i]));
      if merged.Err? { return Err(merged.error); }
      components := merged.value;
      edges := AddDependencies(edges, DependenciesOf(targets[i]), Dependencies(targets[..i]));
    }
    assert targets[..|targets|] == targets;
    var all := components + roots;
    var refs := all.Keys + {root.ref};
    var dangles := exists ref :: ref in edges && !(ref in refs && edges[ref] <= refs);
    RefsDefined(targets, components, roots);
    DanglesIff(targets, edges, refs);
    if dangles { return Err(Dangling); }
    r := Ok(Bom(root, all, edges));
  }

  lemma NothingMerged(targets: seq<Target>)
    ensures Promotes(map[], Roots(targets[..0])) && Agree(Roots(targets[..0]))
    ensures Merges(map[], Records(targets[..0])) && AllValid(Records(targets[..0])) && Agree(Records(targets[..0]))
    ensures Unites(map[], Dependencies(targets[..0]))
  {}

  lemma RefsDefined(targets: seq<Target>, components: map<Ref, Component>, roots: map<Ref, Component>)
    requires targets != [] && Merges(components, Records(targets)) && Promotes(roots, Roots(targets))
    ensures forall ref :: ref in components.Keys + roots.Keys + {targets[0].app.root.ref} <==> Defined(targets, ref)
  {
    hide Records;
    hide Roots;
  }

  lemma DanglesIff(targets: seq<Target>, edges: map<Ref, set<Ref>>, refs: set<Ref>)
    requires Unites(edges, Dependencies(targets)) && forall ref :: ref in refs <==> Defined(targets, ref)
    ensures NoDangling(targets) <==> forall ref :: ref in edges ==> ref in refs && edges[ref] <= refs
  {
    hide Dependencies;
    hide Defined;
    var all := Dependencies(targets);
    if NoDangling(targets) {
      forall ref | ref in edges ensures ref in refs && edges[ref] <= refs {
        forall to | to in edges[ref] ensures to in refs {
          assert HasEdge(all, ref, to);
        }
      }
    }
    if forall ref :: ref in edges ==> ref in refs && edges[ref] <= refs {
      forall d | d in all ensures Defined(targets, d.ref) && forall to :: to in d.dependsOn ==> Defined(targets, to) {
        assert d.ref in edges;
        forall to | to in d.dependsOn ensures Defined(targets, to) { assert HasEdge(all, d.ref, to); }
      }
    }
  }

  // ----- the order of anything makes no difference

  ghost predicate HasApp(targets: seq<Target>, root: Record) {
    exists t :: t in targets && t.app.root == root
  }

  /** The two have the same records, roots and edges, wherever they stand. */
  ghost predicate SameParts(a: seq<Target>, b: seq<Target>) {
    && (forall r :: r in Records(a) <==> r in Records(b))
    && (forall r :: r in Roots(a) <==> r in Roots(b))
    && (forall r :: HasApp(a, r) <==> HasApp(b, r))
    && (forall ref :: HasRef(Dependencies(a), ref) <==> HasRef(Dependencies(b), ref))
    && (forall ref, to :: HasEdge(Dependencies(a), ref, to) <==> HasEdge(Dependencies(b), ref, to))
  }

  lemma ScopeByRank(a: Scope, b: Scope)
    requires Rank(a) == Rank(b) && Rank(a) >= 0
    ensures a == b
  {}

  lemma MergesUnique(a: map<Ref, Component>, b: map<Ref, Component>, x: seq<Record>, y: seq<Record>)
    requires Merges(a, x) && Merges(b, y) && AllValid(x) && forall r :: r in x <==> r in y
    ensures a == b
  {
    assert a.Keys == b.Keys;
    forall ref | ref in a ensures a[ref] == b[ref] {
      var r :| r in x && r.ref == ref && ScopeOf(r) == a[ref].scope;
      var s :| s in y && s.ref == ref && ScopeOf(s) == b[ref].scope;
      ScopeByRank(a[ref].scope, b[ref].scope);
    }
  }

  lemma PromotesUnique(a: map<Ref, Component>, b: map<Ref, Component>, x: seq<Record>, y: seq<Record>)
    requires Promotes(a, x) && Promotes(b, y) && forall r :: r in x <==> r in y
    ensures a == b
  {
    assert a.Keys == b.Keys;
    forall ref | ref in a ensures a[ref] == b[ref] {
      var r :| r in x && r.ref == ref;
    }
  }

  lemma UnitesUnique(a: map<Ref, set<Ref>>, b: map<Ref, set<Ref>>, x: seq<Dependency>, y: seq<Dependency>)
    requires Unites(a, x) && Unites(b, y)
    requires forall ref :: HasRef(x, ref) <==> HasRef(y, ref)
    requires forall ref, to :: HasEdge(x, ref, to) <==> HasEdge(y, ref, to)
    ensures a == b
  {
    hide HasRef;
    hide HasEdge;
    assert a.Keys == b.Keys;
    forall ref | ref in a ensures a[ref] == b[ref] {
      forall to ensures to in a[ref] <==> to in b[ref] {
        assert HasEdge(x, ref, to) <==> HasEdge(y, ref, to);
      }
    }
  }

  /** Documents with the same parts merge to the same graph, or none does: the order of platforms,
      of the programs shipped, of records, of dependencies and of their edges makes no difference,
      and neither does saying something twice. */
  lemma OrderMakesNoDifference(targets: seq<Target>, other: seq<Target>, bom: Bom, bom': Bom)
    requires SameParts(targets, other) && targets != [] && other != []
    ensures Mergeable(targets) <==> Mergeable(other)
    ensures Mergeable(targets) && Describes(bom, targets) && Describes(bom', other) ==> bom == bom'
  {
    SameMergeable(targets, other);
    if Mergeable(targets) && Describes(bom, targets) && Describes(bom', other) {
      hide Records;
      hide Roots;
      hide Dependencies;
      hide Merges;
      hide Promotes;
      hide Unites;
      var c, r :| Merges(c, Records(targets)) && Promotes(r, Roots(targets)) && bom.components == c + r;
      var d, s :| Merges(d, Records(other)) && Promotes(s, Roots(other)) && bom'.components == d + s;
      MergesUnique(c, d, Records(targets), Records(other));
      PromotesUnique(r, s, Roots(targets), Roots(other));
      UnitesUnique(bom.dependencies, bom'.dependencies, Dependencies(targets), Dependencies(other));
      SameFirst(targets, other);
    }
  }

  lemma SameFirst(targets: seq<Target>, other: seq<Target>)
    requires targets != [] && other != [] && SameApps(targets) && forall r :: HasApp(targets, r) <==> HasApp(other, r)
    ensures SameApps(other) && targets[0].app.root == other[0].app.root
  {
    forall i | 0 <= i < |other| ensures other[i].app.root == targets[0].app.root {
      assert HasApp(other, other[i].app.root);
      var t :| t in targets && t.app.root == other[i].app.root;
    }
  }

  lemma DanglingByEdges(targets: seq<Target>)
    ensures NoDangling(targets) <==>
      && (forall ref :: HasRef(Dependencies(targets), ref) ==> Defined(targets, ref))
      && (forall ref, to :: HasEdge(Dependencies(targets), ref, to) ==> Defined(targets, to))
  {
    hide Dependencies;
    hide Defined;
    if (forall ref :: HasRef(Dependencies(targets), ref) ==> Defined(targets, ref))
       && (forall ref, to :: HasEdge(Dependencies(targets), ref, to) ==> Defined(targets, to))
    {
      forall d | d in Dependencies(targets)
        ensures Defined(targets, d.ref) && forall to :: to in d.dependsOn ==> Defined(targets, to)
      {
        assert HasRef(Dependencies(targets), d.ref);
        forall to | to in d.dependsOn ensures Defined(targets, to) {
          assert HasEdge(Dependencies(targets), d.ref, to);
        }
      }
    }
  }

  lemma SameMergeable(targets: seq<Target>, other: seq<Target>)
    requires targets != [] && other != [] && SameParts(targets, other)
    ensures Mergeable(targets) <==> Mergeable(other)
  {
    hide Records;
    hide Roots;
    hide Dependencies;
    if SameApps(targets) { SameFirst(targets, other); }
    if SameApps(other) { SameFirst(other, targets); }
    if SameApps(targets) {
      forall ref ensures Defined(targets, ref) <==> Defined(other, ref) {}
      DanglingByEdges(targets);
      DanglingByEdges(other);
    }
  }

  // ----- the same parts in another order

  ghost predicate AlikeDependency(a: Dependency, b: Dependency) {
    a.ref == b.ref && multiset(a.dependsOn) == multiset(b.dependsOn)
  }

  /** Each of `a` is like one of `b`. */
  ghost predicate EachDependency(a: seq<Dependency>, b: seq<Dependency>) {
    forall d :: d in a ==> exists e :: e in b && AlikeDependency(d, e)
  }

  /** The same records and dependencies, in any order, each with its edges in any order. */
  ghost predicate AlikeDocument(a: Document, b: Document) {
    && a.root == b.root && multiset(a.components) == multiset(b.components)
    && EachDependency(a.dependencies, b.dependencies) && EachDependency(b.dependencies, a.dependencies)
  }

  ghost predicate EachDocument(a: seq<Document>, b: seq<Document>) {
    forall d :: d in a ==> exists e :: e in b && AlikeDocument(d, e)
  }

  ghost predicate AlikeTarget(a: Target, b: Target) {
    AlikeDocument(a.app, b.app) && EachDocument(a.shipped, b.shipped) && EachDocument(b.shipped, a.shipped)
  }

  ghost predicate EachTarget(a: seq<Target>, b: seq<Target>) {
    forall t :: t in a ==> exists u :: u in b && AlikeTarget(t, u)
  }

  /** Reordered at every level. */
  ghost predicate Reordered(a: seq<Target>, b: seq<Target>) { EachTarget(a, b) && EachTarget(b, a) }

  lemma AlikeSelf(d: Document, t: Target)
    ensures AlikeDocument(d, d) && AlikeTarget(t, t)
  {
    forall d: Document ensures EachDependency(d.dependencies, d.dependencies) {
      forall x | x in d.dependencies ensures exists e :: e in d.dependencies && AlikeDependency(x, e) {
        assert AlikeDependency(x, x);
      }
    }
    forall x | x in t.shipped ensures exists e :: e in t.shipped && AlikeDocument(x, e) {
      assert AlikeDocument(x, x);
    }
  }

  ghost predicate SameMultisets(d: Document, e: Document) {
    && d.root == e.root && multiset(d.components) == multiset(e.components)
    && multiset(d.dependencies) == multiset(e.dependencies)
  }

  /** A permutation at any one level is a reordering. */
  lemma PermutationsReorder(a: seq<Target>, b: seq<Target>, t: Target, u: Target, d: Document, e: Document)
    ensures multiset(a) == multiset(b) ==> Reordered(a, b)
    ensures AlikeDocument(t.app, u.app) && multiset(t.shipped) == multiset(u.shipped) ==> AlikeTarget(t, u)
    ensures SameMultisets(d, e) ==> AlikeDocument(d, e)
  {
    if multiset(a) == multiset(b) {
      forall x | x in a || x in b ensures x in a && x in b && AlikeTarget(x, x) {
        assert x in multiset(a) && x in multiset(b);
        AlikeSelf(d, x);
      }
    }
    if multiset(t.shipped) == multiset(u.shipped) {
      forall x | x in t.shipped || x in u.shipped ensures x in t.shipped && x in u.shipped && AlikeDocument(x, x) {
        assert x in multiset(t.shipped) && x in multiset(u.shipped);
        AlikeSelf(x, t);
      }
    }
    if multiset(d.dependencies) == multiset(e.dependencies) {
      forall x | x in d.dependencies || x in e.dependencies
        ensures x in d.dependencies && x in e.dependencies && AlikeDependency(x, x)
      {
        assert x in multiset(d.dependencies) && x in multiset(e.dependencies);
      }
    }
  }

  // What a target's and a run of targets' parts are made of.

  lemma {:induction false} PartsOfGraphs(graphs: seq<Document>)
    ensures forall r :: r in RecordsIn(graphs) <==> exists g :: g in graphs && r in g.components
    ensures forall d :: d in DependenciesIn(graphs) <==> exists g :: g in graphs && d in g.dependencies
  {
    if graphs != [] {
      var n := |graphs| - 1;
      PartsOfGraphs(graphs[..n]);
      assert forall g :: g in graphs <==> g in graphs[..n] || g == graphs[n];
    }
  }

  lemma RootsOfTarget(t: Target)
    ensures forall r :: r in ShippedRoots(t) <==> exists g :: g in t.shipped && r == g.root
  {
    forall r ensures r in ShippedRoots(t) <==> exists g :: g in t.shipped && r == g.root {
      if g :| g in t.shipped && r == g.root {
        var i :| 0 <= i < |t.shipped| && t.shipped[i] == g;
        assert ShippedRoots(t)[i] == r;
      }
    }
  }

  lemma {:induction false} PartsOf(targets: seq<Target>)
    ensures forall r :: r in Records(targets) <==> exists t :: t in targets && r in RecordsOf(t)
    ensures forall r :: r in Roots(targets) <==> exists t :: t in targets && r in ShippedRoots(t)
    ensures forall d :: d in Dependencies(targets) <==> exists t :: t in targets && d in DependenciesOf(t)
  {
    hide RecordsOf;
    hide ShippedRoots;
    hide DependenciesOf;
    if targets != [] {
      var n := |targets| - 1;
      PartsOf(targets[..n]);
      assert forall t :: t in targets <==> t in targets[..n] || t == targets[n];
    }
  }

  lemma AlikeIn(a: seq<Document>, b: seq<Document>, g: Document) returns (h: Document)
    requires EachDocument(a, b) && g in a
    ensures h in b && AlikeDocument(g, h)
  {
    hide AlikeDocument;
    h :| h in b && AlikeDocument(g, h);
  }

  lemma AlikeGraphs(t: Target, u: Target, g: Document) returns (h: Document)
    requires AlikeTarget(t, u) && g in Graphs(t)
    ensures h in Graphs(u) && AlikeDocument(g, h)
  {
    hide AlikeDocument;
    hide EachDocument;
    if g == t.app {
      h := u.app;
    } else {
      assert g in t.shipped;
      h := AlikeIn(t.shipped, u.shipped, g);
    }
  }

  /** What one of the two has, the other has. */
  lemma EachHas(a: seq<Target>, b: seq<Target>)
    requires EachTarget(a, b)
    ensures forall r :: r in Records(a) ==> r in Records(b)
    ensures forall r :: r in Roots(a) ==> r in Roots(b)
    ensures forall r :: HasApp(a, r) ==> HasApp(b, r)
    ensures forall d :: d in Dependencies(a) ==> exists e :: e in Dependencies(b) && AlikeDependency(d, e)
  {
    hide Records;
    hide Roots;
    hide Dependencies;
    hide RecordsOf;
    hide ShippedRoots;
    hide DependenciesOf;
    PartsOf(a);
    PartsOf(b);
    forall r | r in Records(a) ensures r in Records(b) {
      var t :| t in a && r in RecordsOf(t);
      RecordMoves(t, b, r);
    }
    forall r | r in Roots(a) ensures r in Roots(b) {
      var t :| t in a && r in ShippedRoots(t);
      RootMoves(t, b, r);
    }
    forall d | d in Dependencies(a) ensures exists e :: e in Dependencies(b) && AlikeDependency(d, e) {
      var t :| t in a && d in DependenciesOf(t);
      var e := DependencyMoves(t, b, d);
    }
  }

  lemma RecordMoves(t: Target, b: seq<Target>, r: Record)
    requires (exists u :: u in b && AlikeTarget(t, u)) && r in RecordsOf(t)
    ensures exists u :: u in b && r in RecordsOf(u)
  {
    hide AlikeTarget;
    hide EachDependency;
    var u :| u in b && AlikeTarget(t, u);
    PartsOfGraphs(Graphs(t));
    PartsOfGraphs(Graphs(u));
    var g :| g in Graphs(t) && r in g.components;
    var h := AlikeGraphs(t, u, g);
    assert r in multiset(g.components) && r in multiset(h.components);
  }

  lemma RootMoves(t: Target, b: seq<Target>, r: Record)
    requires (exists u :: u in b && AlikeTarget(t, u)) && r in ShippedRoots(t)
    ensures exists u :: u in b && r in ShippedRoots(u)
  {
    hide ShippedRoots;
    hide EachDependency;
    hide EachDocument;
    var u :| u in b && AlikeTarget(t, u);
    RootsOfTarget(t);
    RootsOfTarget(u);
    var g :| g in t.shipped && r == g.root;
    var h := AlikeIn(t.shipped, u.shipped, g);
  }

  lemma DependencyMoves(t: Target, b: seq<Target>, d: Dependency) returns (e: Dependency)
    requires (exists u :: u in b && AlikeTarget(t, u)) && d in DependenciesOf(t)
    ensures (exists u :: u in b && e in DependenciesOf(u)) && AlikeDependency(d, e)
  {
    hide AlikeTarget;
    hide AlikeDependency;
    var u :| u in b && AlikeTarget(t, u);
    PartsOfGraphs(Graphs(t));
    PartsOfGraphs(Graphs(u));
    var g :| g in Graphs(t) && d in g.dependencies;
    var h := AlikeGraphs(t, u, g);
    e :| e in h.dependencies && AlikeDependency(d, e);
  }

  lemma EdgesMove(x: seq<Dependency>, y: seq<Dependency>)
    requires EachDependency(x, y)
    ensures forall ref :: HasRef(x, ref) ==> HasRef(y, ref)
    ensures forall ref, to :: HasEdge(x, ref, to) ==> HasEdge(y, ref, to)
  {
    forall ref, to | HasEdge(x, ref, to) ensures HasEdge(y, ref, to) {
      var d :| d in x && d.ref == ref && to in d.dependsOn;
      var e :| e in y && AlikeDependency(d, e);
      assert to in multiset(d.dependsOn) && to in multiset(e.dependsOn);
    }
  }

  /** Platforms, programs, records, dependencies and edges in any order are the same parts. */
  lemma ReorderedHasSameParts(a: seq<Target>, b: seq<Target>)
    requires Reordered(a, b)
    ensures SameParts(a, b)
  {
    hide Records;
    hide Roots;
    hide Dependencies;
    hide EachTarget;
    hide HasApp;
    hide HasRef;
    hide HasEdge;
    EachHas(a, b);
    EachHas(b, a);
    EdgesMove(Dependencies(a), Dependencies(b));
    EdgesMove(Dependencies(b), Dependencies(a));
  }
}
