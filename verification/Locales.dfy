/** The variables a message takes, its references' included (crates/sheprd-gpui/locales.rs). */
module Locales {
  import opened Basics

  type Name = string

  // ----- the part of a Fluent message that can name a variable or a message

  datatype Pattern = Pattern(elements: seq<Element>)
  datatype Element = Words(text: string) | Placeable(expression: Expression)
  datatype Expression = Select(selector: Inline, variants: seq<Pattern>) | Plain(inline: Inline)
  datatype Inline =
    | VariableReference(name: Name)
    | MessageReference(name: Name)
    | FunctionReference(positional: seq<Inline>, named: seq<Inline>)
    | TermReference(name: Name, positional: seq<Inline>, named: seq<Inline>)
    | Nested(expression: Expression)
    | Literal(text: string)

  /** Whether `x` stands somewhere in the pattern, outside the arguments of a term. */
  ghost predicate InPattern(x: Inline, pattern: Pattern) {
    exists i :: 0 <= i < |pattern.elements| && InElement(x, pattern.elements[i])
  }

  ghost predicate InElement(x: Inline, element: Element) {
    element.Placeable? && InExpression(x, element.expression)
  }

  ghost predicate InExpression(x: Inline, expression: Expression) {
    match expression
    case Select(selector, variants) =>
      InInline(x, selector) || exists i :: 0 <= i < |variants| && InPattern(x, variants[i])
    case Plain(inline) => InInline(x, inline)
  }

  ghost predicate InInline(x: Inline, inline: Inline) {
    x == inline ||
    match inline
    case FunctionReference(positional, named) =>
      || (exists i :: 0 <= i < |positional| && InInline(x, positional[i]))
      || (exists i :: 0 <= i < |named| && InInline(x, named[i]))
    case Nested(expression) => InExpression(x, expression)
    case _ => false
  }

  /** The variables and the messages a text uses. */
  datatype Uses = Uses(variables: set<Name>, references: set<Name>)

  /** Whether a name is among the uses. */
  predicate Has(uses: Uses, x: Inline) {
    (x.VariableReference? && x.name in uses.variables) || (x.MessageReference? && x.name in uses.references)
  }

  predicate IsName(x: Inline) { x.VariableReference? || x.MessageReference? }

  // The first `n` parts of something, so that a loop can walk it.

  ghost predicate InElements(x: Inline, elements: seq<Element>, n: nat)
    requires n <= |elements|
  {
    exists i :: 0 <= i < n && InElement(x, elements[i])
  }

  ghost predicate InPatterns(x: Inline, patterns: seq<Pattern>, n: nat)
    requires n <= |patterns|
  {
    exists i :: 0 <= i < n && InPattern(x, patterns[i])
  }

  ghost predicate InInlines(x: Inline, inlines: seq<Inline>, n: nat)
    requires n <= |inlines|
  {
    exists i :: 0 <= i < n && InInline(x, inlines[i])
  }

  lemma OneMore(x: Inline, elements: seq<Element>, patterns: seq<Pattern>, inlines: seq<Inline>, n: nat)
    ensures n < |elements| ==>
      (InElements(x, elements, n + 1) <==> InElements(x, elements, n) || InElement(x, elements[n]))
    ensures n < |patterns| ==>
      (InPatterns(x, patterns, n + 1) <==> InPatterns(x, patterns, n) || InPattern(x, patterns[n]))
    ensures n < |inlines| ==>
      (InInlines(x, inlines, n + 1) <==> InInlines(x, inlines, n) || InInline(x, inlines[n]))
  {
    hide InElement;
    hide InPattern;
    hide InInline;
  }

  /** Exactly the variables and messages named in the pattern are added. */
  method PatternUses(pattern: Pattern, uses: Uses) returns (more: Uses)
    ensures forall x :: IsName(x) ==> (Has(more, x) <==> Has(uses, x) || InPattern(x, pattern))
    decreases pattern
  {
    hide InElement;
    hide InExpression;
    hide Has;
    more := uses;
    for i := 0 to |pattern.elements|
      invariant forall x :: IsName(x) ==> (Has(more, x) <==> Has(uses, x) || InElements(x, pattern.elements, i))
    {
      if pattern.elements[i].Placeable? {
        more := ExpressionUses(pattern.elements[i].expression, more);
      }
      forall x | IsName(x)
        ensures Has(more, x) <==> Has(uses, x) || InElements(x, pattern.elements, i + 1)
      {
        OneMore(x, pattern.elements, [], [], i);
        ElementIs(x, pattern.elements[i]);
      }
    }
  }

  lemma ElementIs(x: Inline, element: Element)
    ensures InElement(x, element) <==> element.Placeable? && InExpression(x, element.expression)
  {}

  method ExpressionUses(expression: Expression, uses: Uses) returns (more: Uses)
    ensures forall x :: IsName(x) ==> (Has(more, x) <==> Has(uses, x) || InExpression(x, expression))
    decreases expression
  {
    hide InPattern;
    hide InInline;
    hide Has;
    match expression
    case Select(selector, variants) =>
      more := InlineUses(selector, uses);
      for i := 0 to |variants|
        invariant forall x :: IsName(x) ==>
          (Has(more, x) <==> Has(uses, x) || InInline(x, selector) || InPatterns(x, variants, i))
      {
        more := PatternUses(variants[i], more);
        forall x | IsName(x)
          ensures Has(more, x) <==> Has(uses, x) || InInline(x, selector) || InPatterns(x, variants, i + 1)
        {
          OneMore(x, [], variants, [], i);
        }
      }
    case Plain(inline) => more := InlineUses(inline, uses);
  }

  method InlineUses(inline: Inline, uses: Uses) returns (more: Uses)
    ensures forall x :: IsName(x) ==> (Has(more, x) <==> Has(uses, x) || InInline(x, inline))
    decreases inline, 1
  {
    hide InExpression;
    more := uses;
    match inline
    case VariableReference(name) => more := more.(variables := more.variables + {name});
    case MessageReference(name) => more := more.(references := more.references + {name});
    case FunctionReference(positional, named) =>
      hide InInline;
      var some := InlinesUses(positional, uses);
      more := InlinesUses(named, some);
      forall x | IsName(x) ensures Has(more, x) <==> Has(uses, x) || InInline(x, inline) {
        FunctionIs(x, inline);
      }
    case Nested(expression) =>
      more := ExpressionUses(expression, more);
    case TermReference(_, _, _) =>
    case Literal(_) =>
  }

  lemma FunctionIs(x: Inline, f: Inline)
    requires f.FunctionReference? && IsName(x)
    ensures InInline(x, f) <==> InInlines(x, f.positional, |f.positional|) || InInlines(x, f.named, |f.named|)
  {}

  method InlinesUses(inlines: seq<Inline>, uses: Uses) returns (more: Uses)
    ensures forall x :: IsName(x) ==> (Has(more, x) <==> Has(uses, x) || InInlines(x, inlines, |inlines|))
    decreases inlines, 0
  {
    hide InInline;
    hide Has;
    more := uses;
    for i := 0 to |inlines|
      invariant forall x :: IsName(x) ==> (Has(more, x) <==> Has(uses, x) || InInlines(x, inlines, i))
    {
      more := InlineUses(inlines[i], more);
      forall x | IsName(x) ensures Has(more, x) <==> Has(uses, x) || InInlines(x, inlines, i + 1) {
        OneMore(x, [], [], inlines, i);
      }
    }
  }

  // ----- the closure over references

  type Messages = map<Name, Uses>

  predicate Refers(messages: Messages, from: Name, to: Name) {
    from in messages && to in messages[from].references
  }

  /** A chain of references, every message but perhaps the last defined. */
  ghost predicate Path(messages: Messages, path: seq<Name>) {
    path != [] && forall i :: 0 <= i < |path| - 1 ==> Refers(messages, path[i], path[i + 1])
  }

  ghost predicate Reaches(messages: Messages, from: Name, to: Name) {
    exists path :: Path(messages, path) && path[0] == from && path[|path| - 1] == to
  }

  /** Whether the variable is some reachable, defined message's own. */
  ghost predicate Takes(messages: Messages, id: Name, variable: Name) {
    exists to :: Reaches(messages, id, to) && to in messages && variable in messages[to].variables
  }

  lemma ReachesSelf(messages: Messages, id: Name)
    ensures Reaches(messages, id, id)
  {
    assert Path(messages, [id]) && [id][|[id]| - 1] == id;
  }

  lemma ReachesOn(messages: Messages, id: Name, reference: Name, to: Name)
    requires id in messages && reference in messages[id].references && Reaches(messages, reference, to)
    ensures Reaches(messages, id, to)
  {
    var path :| Path(messages, path) && path[0] == reference && path[|path| - 1] == to;
    var on := [id] + path;
    forall i | 0 <= i < |on| - 1 ensures Refers(messages, on[i], on[i + 1]) {
      if i > 0 { assert Refers(messages, path[i - 1], path[i]); }
    }
    assert Path(messages, on) && on[0] == id && on[|on| - 1] == to;
  }

  /** Every defined message a member references is a member. */
  ghost predicate Closed(messages: Messages, some: set<Name>, within: set<Name>) {
    forall n, r :: n in some && n in messages && r in messages[n].references && r in messages ==> r in within
  }

  lemma {:induction false} ClosedHoldsAll(messages: Messages, some: set<Name>, path: seq<Name>)
    requires Closed(messages, some, some) && Path(messages, path) && path[0] in some
    requires path[|path| - 1] in messages
    ensures path[|path| - 1] in some
    decreases |path|
  {
    if |path| > 1 {
      var rest := path[1..];
      assert Refers(messages, path[0], path[1]) && (|path| > 2 ==> Refers(messages, path[1], path[2]));
      assert Path(messages, rest) && rest[|rest| - 1] == path[|path| - 1];
      ClosedHoldsAll(messages, some, rest);
    }
  }

  /** The variables are exactly those the messages of `some` have of their own. */
  ghost predicate Owns(messages: Messages, some: set<Name>, variables: set<Name>) {
    forall v :: v in variables <==> exists n :: n in some && n in messages && v in messages[n].variables
  }

  lemma OwnsUnion(messages: Messages, a: set<Name>, b: set<Name>, x: set<Name>, y: set<Name>)
    requires Owns(messages, a, x) && Owns(messages, b, y)
    ensures Owns(messages, a + b, x + y)
  {}

  /** `visiting` is shared by the whole recursion and never popped: a call adds to it exactly the
      messages it could reach through unvisited ones, and returns what those have of their own. */
  method Variables(id: Name, messages: Messages, visiting: set<Name>) returns (all: set<Name>, visited: set<Name>)
    ensures visiting <= visited <= visiting + messages.Keys
    ensures id in messages ==> id in visited
    ensures Closed(messages, visited - visiting, visited)
    ensures Owns(messages, visited - visiting, all)
    ensures forall n :: n in visited - visiting ==> Reaches(messages, id, n)
    decreases messages.Keys - visiting
  {
    visited := visiting;
    if id !in messages { return {}, visited; }
    if id in visiting { return {}, visited; }
    visited := visited + {id};
    all := messages[id].variables;
    var left := messages[id].references;
    ReachesSelf(messages, id);
    assert visited - visiting == {id};
    while left != {}
      invariant left <= messages[id].references
      invariant visiting + {id} <= visited <= visiting + messages.Keys
      invariant forall r :: r in messages[id].references && r !in left && r in messages ==> r in visited
      invariant Closed(messages, visited - visiting - {id}, visited)
      invariant Owns(messages, visited - visiting, all)
      invariant forall n :: n in visited - visiting ==> Reaches(messages, id, n)
      decreases |left|
    {
      var reference :| reference in left;
      ghost var before, had := visited, all;
      assert id in messages.Keys - visiting && id !in messages.Keys - visited;
      var more;
      more, visited := Variables(reference, messages, visited);
      left := left - {reference};
      all := all + more;
      assert visited - visiting == (before - visiting) + (visited - before);
      OwnsUnion(messages, before - visiting, visited - before, had, more);
      forall n | n in visited - visiting ensures Reaches(messages, id, n) {
        if n !in before { ReachesOn(messages, id, reference, n); }
      }
    }
  }

  /** The variables of a message: those of every defined message reachable from it, cycles and
      references to nothing included. */
  method MessageVariables(id: Name, messages: Messages) returns (all: set<Name>)
    ensures forall v :: v in all <==> Takes(messages, id, v)
  {
    var visited;
    all, visited := Variables(id, messages, {});
    assert visited - {} == visited;
    forall to | Reaches(messages, id, to) && to in messages ensures to in visited {
      var path :| Path(messages, path) && path[0] == id && path[|path| - 1] == to;
      assert id in messages by { if |path| > 1 { assert Refers(messages, path[0], path[1]); } }
      ClosedHoldsAll(messages, visited, path);
    }
  }

  // ----- the generated table

  /** The messages of the fallback language, some with attributes only. */
  type Sources = map<Name, Option<Pattern>>

  ghost predicate Names(sources: Sources, id: Name, x: Inline) {
    id in sources && sources[id].Some? && InPattern(x, sources[id].value)
  }

  /** From message to message, each naming the next. */
  ghost predicate Walk(sources: Sources, path: seq<Name>) {
    path != [] && forall i :: 0 <= i < |path| - 1 ==> Names(sources, path[i], MessageReference(path[i + 1]))
  }

  ghost predicate Listed(sources: Sources, id: Name, variable: Name) {
    exists path :: Walk(sources, path) && path[0] == id
                   && Names(sources, path[|path| - 1], VariableReference(variable))
  }

  ghost predicate UsesOf(uses: Uses, sources: Sources, id: Name) {
    forall x :: IsName(x) ==> (Has(uses, x) <==> Names(sources, id, x))
  }

  method Fallback(sources: Sources) returns (messages: Messages)
    ensures messages.Keys == sources.Keys
    ensures forall id :: id in sources ==> UsesOf(messages[id], sources, id)
  {
    hide InPattern;
    messages := map[];
    var left := sources.Keys;
    while left != {}
      invariant left <= sources.Keys && messages.Keys == sources.Keys - left
      invariant forall id :: id in messages ==> UsesOf(messages[id], sources, id)
      decreases |left|
    {
      var id :| id in left;
      var uses := Uses({}, {});
      if sources[id].Some? { uses := PatternUses(sources[id].value, uses); }
      assert UsesOf(uses, sources, id);
      messages := messages[id := uses];
      left := left - {id};
    }
  }

  lemma WalkIsPath(sources: Sources, messages: Messages, path: seq<Name>)
    requires messages.Keys == sources.Keys
    requires forall id :: id in sources ==> UsesOf(messages[id], sources, id)
    ensures Walk(sources, path) <==> Path(messages, path)
  {
    hide InPattern;
    forall i | 0 <= i < |path| - 1
      ensures Names(sources, path[i], MessageReference(path[i + 1])) <==>
              Refers(messages, path[i], path[i + 1])
    {
      if path[i] in sources {
        assert UsesOf(messages[path[i]], sources, path[i]);
        assert IsName(MessageReference(path[i + 1]));
      }
    }
  }

  lemma TakesIsListed(sources: Sources, messages: Messages, id: Name, v: Name)
    requires messages.Keys == sources.Keys
    requires forall id :: id in sources ==> UsesOf(messages[id], sources, id)
    ensures Takes(messages, id, v) <==> Listed(sources, id, v)
  {
    hide InPattern;
    assert IsName(VariableReference(v));
    if Takes(messages, id, v) {
      var to :| Reaches(messages, id, to) && to in messages && v in messages[to].variables;
      var path :| Path(messages, path) && path[0] == id && path[|path| - 1] == to;
      WalkIsPath(sources, messages, path);
      assert UsesOf(messages[to], sources, to);
    }
    if Listed(sources, id, v) {
      var path :| Walk(sources, path) && path[0] == id && Names(sources, path[|path| - 1], VariableReference(v));
      WalkIsPath(sources, messages, path);
      assert Reaches(messages, id, path[|path| - 1]);
      assert UsesOf(messages[path[|path| - 1]], sources, path[|path| - 1]);
    }
  }

  /** Every message is listed with exactly the variables its text names, or some text reached from
      it by reference. */
  method Generate(sources: Sources) returns (table: map<Name, set<Name>>)
    ensures table.Keys == sources.Keys
    ensures forall id, v :: id in table ==> (v in table[id] <==> Listed(sources, id, v))
  {
    hide Listed;
    hide Takes;
    hide UsesOf;
    var messages := Fallback(sources);
    table := map[];
    var left := sources.Keys;
    while left != {}
      invariant left <= sources.Keys && table.Keys == sources.Keys - left
      invariant forall id, v :: id in table ==> (v in table[id] <==> Listed(sources, id, v))
      decreases |left|
    {
      var id :| id in left;
      var all := MessageVariables(id, messages);
      forall v ensures v in all <==> Listed(sources, id, v) { TakesIsListed(sources, messages, id, v); }
      table := table[id := all];
      left := left - {id};
    }
  }
}
