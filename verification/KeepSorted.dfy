/** Marked lists kept sorted (scripts/check-sorted.py). A file is a sequence of lines; `fold` is the
    case folding keys are compared under. */
module KeepSorted {
  import opened Basics
  import opened Strings

  type Line = string
  type Block = seq<Line>

  datatype Error =
    | IndentedStart
    | DanglingPreamble
    | Unclosed(line: nat)
    | InRegion(line: nat, why: Error)

  // ----- lines

  function Indent(line: Line): nat {
    LStripShorter(line);
    |line| - |LStrip(line)|
  }

  predicate Preamble(stripped: string) { StartsWith(stripped, "//") || StartsWith(stripped, "#") }

  /** The empty text counts as one. */
  predicate Continuation(stripped: string) {
    stripped == "" || stripped[0] == ')' || stripped[0] == ']' || stripped[0] == '}'
  }

  const START := "keep-sorted start"
  const END := "keep-sorted end"

  predicate Marker(line: Line, marker: string) { Preamble(LStrip(line)) && Contains(line, marker) }

  predicate Blank(line: Line) { Strip(line) == "" }

  // ----- keys

  /** Without a leading `pub` or `pub(…)` and the space after it. */
  function Unpublished(s: string): string {
    if !StartsWith(s, "pub") then s
    else
      var close := if |s| > 3 && s[3] == '(' then FindClose(s, 4) else |s|;
      var rest := if close < |s| then s[close + 1..] else s[3..];
      if rest != "" && Space(rest[0]) then LStrip(rest) else s
  }

  /** A name has the same key whatever its visibility. */
  lemma VisibilityIgnored(inside: string, scoped: bool, gap: string, name: string)
    requires ')' !in inside && gap != "" && (forall c :: c in gap ==> Space(c)) && (name != "" ==> !Space(name[0]))
    ensures Unpublished("pub" + (if scoped then "(" + inside + ")" else "") + gap + name) == name
  {
    var visible := if scoped then "(" + inside + ")" else "";
    var s := "pub" + visible + gap + name;
    assert s[..3] == "pub";
    LStripGap(gap, name);
    if scoped {
      var close := 4 + |inside|;
      assert s[3] == '(' && s[close] == ')';
      assert forall i :: 4 <= i < close ==> s[i] == inside[i - 4];
      FindCloseIs(s, 4, close);
      assert s[close + 1..] == gap + name;
    } else {
      assert s[3] == gap[0] && Space(gap[0]) && s[3] != '(';
      assert s[3..] == gap + name;
    }
  }

  predicate Starts(line: Line, base: nat) { Indent(line) == base && !Continuation(Strip(line)) }

  predicate Plain(line: Line, base: nat) { Starts(line, base) && !Preamble(Strip(line)) }

  /** The first plain line from `i` on. */
  function FirstPlain(entry: Block, base: nat, i: nat): (r: nat)
    requires i <= |entry|
    ensures i <= r <= |entry| && (r < |entry| ==> Plain(entry[r], base))
    ensures forall j :: i <= j < r ==> !Plain(entry[j], base)
    decreases |entry| - i
  {
    if i == |entry| || Plain(entry[i], base) then i else FirstPlain(entry, base, i + 1)
  }

  function Key(entry: Block, fold: string -> string): string
    requires entry != []
  {
    var i := FirstPlain(entry, Indent(entry[0]), 0);
    if i < |entry| then fold(Unpublished(Strip(entry[i]))) else fold(Strip(entry[0]))
  }

  method ComputeKey(entry: Block, fold: string -> string) returns (key: string)
    requires entry != []
    ensures key == Key(entry, fold)
  {
    var base := Indent(entry[0]);
    for i := 0 to |entry|
      invariant FirstPlain(entry, base, 0) == FirstPlain(entry, base, i)
    {
      var stripped := Strip(entry[i]);
      if Indent(entry[i]) == base && !Preamble(stripped) && !Continuation(stripped) {
        return fold(Unpublished(stripped));
      }
    }
    key := fold(Strip(entry[0]));
  }

  // ----- entries

  function Base(block: Block): (r: nat)
    requires block != []
    ensures exists l :: l in block && Indent(l) == r
    ensures forall l :: l in block ==> r <= Indent(l)
  {
    var last := Indent(block[|block| - 1]);
    if |block| == 1 then assert block[0] in block; last
    else
      var before := Base(block[..|block| - 1]);
      assert block[|block| - 1] in block;
      assert forall l :: l in block ==> l in block[..|block| - 1] || l == block[|block| - 1];
      if last < before then last else before
  }

  datatype Parsed = Parsed(done: seq<Block>, pending: Block)

  function Take(p: Parsed, line: Line, base: nat): Result<Parsed, Error> {
    if Starts(line, base) && Preamble(Strip(line)) then Ok(p.(pending := p.pending + [line]))
    else if Starts(line, base) then Ok(Parsed(p.done + [p.pending + [line]], []))
    else if p.pending != [] then Ok(p.(pending := p.pending + [line]))
    else if p.done != [] then Ok(p.(done := p.done[|p.done| - 1 := p.done[|p.done| - 1] + [line]]))
    else Err(IndentedStart)
  }

  function Parse(lines: Block, base: nat): Result<Parsed, Error> {
    if lines == [] then Ok(Parsed([], []))
    else
      var r := Parse(lines[..|lines| - 1], base);
      if r.Err? then r else Take(r.value, lines[|lines| - 1], base)
  }

  function Entries(block: Block): Result<seq<Block>, Error>
    requires block != []
  {
    var r := Parse(block, Base(block));
    if r.Err? then Err(r.error)
    else if r.value.pending != [] then Err(DanglingPreamble)
    else Ok(r.value.done)
  }

  method ComputeEntries(block: Block) returns (r: Result<seq<Block>, Error>)
    requires block != []
    ensures r == Entries(block)
  {
    var base := Base(block);
    var result: seq<Block> := [];
    var pending: Block := [];
    for i := 0 to |block|
      invariant Parse(block[..i], base) == Ok(Parsed(result, pending))
    {
      assert block[..i + 1][..i] == block[..i];
      ParseFails(block, base, i + 1);
      var line := block[i];
      var stripped := Strip(line);
      var starts := Indent(line) == base && !Continuation(stripped);
      if starts && Preamble(stripped) {
        pending := pending + [line];
      } else if starts {
        result := result + [pending + [line]];
        pending := [];
      } else if pending != [] {
        pending := pending + [line];
      } else if result != [] {
        result := result[|result| - 1 := result[|result| - 1] + [line]];
      } else {
        return Err(IndentedStart);
      }
    }
    assert block[..|block|] == block;
    if pending != [] { return Err(DanglingPreamble); }
    r := Ok(result);
  }

  /** An error ends the parse. */
  lemma {:induction false} ParseFails(block: Block, base: nat, i: nat)
    requires i <= |block|
    ensures Parse(block[..i], base).Err? ==> Parse(block, base) == Parse(block[..i], base)
    decreases |block|
  {
    if i == |block| {
      assert block[..i] == block;
    } else {
      var n := |block| - 1;
      ParseFails(block[..n], base, i);
      assert block[..n][..i] == block[..i];
    }
  }

  function Concat(blocks: seq<Block>): Block {
    if blocks == [] then [] else Concat(blocks[..|blocks| - 1]) + blocks[|blocks| - 1]
  }

  /** Comments and attributes, opened at the block's indentation; then the entry's own line; then
      only deeper or closing lines. */
  predicate ShapedAt(entry: Block, base: nat, k: nat) {
    && k < |entry| && Plain(entry[k], base)
    && (k > 0 ==> Starts(entry[0], base))
    && (forall i :: 0 <= i < k ==> !Plain(entry[i], base))
    && (forall i :: k < i < |entry| ==> !Starts(entry[i], base))
  }

  // What an entry is sorted by.

  /** `s` is `pub`, perhaps with a scope, a gap, and `name`. */
  ghost predicate Publishes(s: string, scope: string, gap: string, name: string) {
    && s == "pub" + scope + gap + name && gap != "" && AllSpace(gap) && (name != "" ==> !Space(name[0]))
    && (scope != "" ==> IsScope(scope))
  }

  ghost predicate IsScope(scope: string) {
    && |scope| >= 2 && scope[0] == '(' && scope[|scope| - 1] == ')'
    && forall i :: 0 < i < |scope| - 1 ==> scope[i] != ')'
  }

  ghost predicate IsPublished(s: string) { exists scope, gap, name :: Publishes(s, scope, gap, name) }

  lemma PublishedName(s: string, scope: string, gap: string, name: string)
    requires Publishes(s, scope, gap, name)
    ensures Unpublished(s) == name
  {
    if scope == "" {
      VisibilityIgnored("", false, gap, name);
      assert "pub" + "" + gap + name == s;
    } else {
      var inside := scope[1..|scope| - 1];
      assert forall i :: 0 <= i < |inside| ==> inside[i] == scope[i + 1];
      assert scope == "(" + inside + ")";
      VisibilityIgnored(inside, true, gap, name);
    }
  }

  lemma UnpublishedOtherwise(s: string)
    requires Unpublished(s) != s
    ensures IsPublished(s)
  {
    hide LStrip;
    var close := if |s| > 3 && s[3] == '(' then FindClose(s, 4) else |s|;
    if close < |s| {
      ScopeIs(s, close);
      GapFollows(s, s[3..close + 1], s[close + 1..]);
    } else {
      assert s == "pub" + "" + s[3..];
      GapFollows(s, "", s[3..]);
    }
  }

  lemma GapFollows(s: string, scope: string, rest: string)
    requires s == "pub" + scope + rest && rest != "" && Space(rest[0]) && (scope != "" ==> IsScope(scope))
    ensures IsPublished(s)
  {
    hide IsScope;
    LStripIs(rest);
    var n := |rest| - |LStrip(rest)|;
    var gap, name := rest[..n], rest[n..];
    assert rest == gap + name && (n == 0 ==> name == rest);
    hide LStrip;
    assert s == "pub" + scope + gap + name;
    assert Publishes(s, scope, gap, name);
  }

  lemma ScopeIs(s: string, close: nat)
    requires StartsWith(s, "pub") && |s| > 3 && s[3] == '(' && close == FindClose(s, 4) < |s|
    ensures IsScope(s[3..close + 1]) && s == "pub" + s[3..close + 1] + s[close + 1..]
  {
    FindCloseFirst(s, 4);
    var scope := s[3..close + 1];
    assert forall i :: 0 <= i < |scope| ==> scope[i] == s[i + 3];
  }

  lemma FirstPlainIs(entry: Block, base: nat, k: nat)
    requires ShapedAt(entry, base, k)
    ensures Indent(entry[0]) == base && FirstPlain(entry, base, 0) == k
  {
    hide Strip;
    hide Indent;
    hide Preamble;
    hide Continuation;
  }

  /** An entry is sorted by its own line, after its comments and attributes, without the visibility it
      begins with. */
  lemma KeyOfPublished(
    entry: Block, fold: string -> string, base: nat, k: nat, scope: string, gap: string, name: string)
    requires ShapedAt(entry, base, k) && Publishes(Strip(entry[k]), scope, gap, name)
    ensures Key(entry, fold) == fold(name)
  {
    hide Strip;
    hide Indent;
    hide Preamble;
    hide Continuation;
    hide Unpublished;
    FirstPlainIs(entry, base, k);
    PublishedName(Strip(entry[k]), scope, gap, name);
  }

  lemma KeyOfOther(entry: Block, fold: string -> string, base: nat, k: nat)
    requires ShapedAt(entry, base, k) && !IsPublished(Strip(entry[k]))
    ensures Key(entry, fold) == fold(Strip(entry[k]))
  {
    hide Strip;
    hide Indent;
    hide Preamble;
    hide Continuation;
    hide Unpublished;
    FirstPlainIs(entry, base, k);
    if Unpublished(Strip(entry[k])) != Strip(entry[k]) { UnpublishedOtherwise(Strip(entry[k])); }
  }

  /** Lines are indented by all the space they begin with. */
  lemma IndentIs(line: Line)
    ensures Indent(line) <= |line| && AllSpace(line[..Indent(line)])
    ensures Indent(line) < |line| ==> !Space(line[Indent(line)])
  {
    LStripIs(line);
  }

  ghost predicate Shaped(entry: Block, base: nat) { exists k :: 0 <= k < |entry| && ShapedAt(entry, base, k) }

  ghost predicate AllShaped(blocks: seq<Block>, base: nat) {
    forall i :: 0 <= i < |blocks| ==> Shaped(blocks[i], base)
  }

  predicate PendingOk(pending: Block, base: nat) {
    pending != [] ==> Starts(pending[0], base) && forall i :: 0 <= i < |pending| ==> !Plain(pending[i], base)
  }

  lemma ConcatSnoc(blocks: seq<Block>, last: Block)
    ensures Concat(blocks + [last]) == Concat(blocks) + last
  {
    assert (blocks + [last])[..|blocks|] == blocks;
  }

  lemma ConcatGrow(blocks: seq<Block>, line: Line)
    requires blocks != []
    ensures var n := |blocks| - 1; Concat(blocks[n := blocks[n] + [line]]) == Concat(blocks) + [line]
  {
    var n := |blocks| - 1;
    assert blocks[n := blocks[n] + [line]][..n] == blocks[..n];
  }

  lemma TakeKeeps(p: Parsed, line: Line, base: nat)
    requires AllShaped(p.done, base) && PendingOk(p.pending, base) && Take(p, line, base).Ok?
    ensures var q := Take(p, line, base).value;
      AllShaped(q.done, base) && PendingOk(q.pending, base)
      && Concat(q.done) + q.pending == Concat(p.done) + p.pending + [line]
  {
    hide Strip;
    hide Indent;
    hide Preamble;
    hide Continuation;
    var q := Take(p, line, base).value;
    if Plain(line, base) {
      var e := p.pending + [line];
      assert ShapedAt(e, base, |p.pending|);
      ConcatSnoc(p.done, e);
    } else if !Starts(line, base) && p.pending == [] {
      var n := |p.done| - 1;
      ConcatGrow(p.done, line);
      assert Shaped(p.done[n], base);
      var k :| 0 <= k < |p.done[n]| && ShapedAt(p.done[n], base, k);
      assert ShapedAt(p.done[n] + [line], base, k);
    }
  }

  lemma {:induction false} ParseShapes(lines: Block, base: nat)
    requires Parse(lines, base).Ok?
    ensures var p := Parse(lines, base).value;
      AllShaped(p.done, base) && PendingOk(p.pending, base) && Concat(p.done) + p.pending == lines
  {
    if lines != [] {
      var n := |lines| - 1;
      ParseShapes(lines[..n], base);
      TakeKeeps(Parse(lines[..n], base).value, lines[n], base);
    }
  }

  lemma ParseSnoc(lines: Block, line: Line, base: nat)
    ensures Parse(lines + [line], base) == var r := Parse(lines, base); if r.Err? then r else Take(r.value, line, base)
  {
    assert (lines + [line])[..|lines|] == lines;
  }

  /** An entry read up to its line `j`, which is its own line when `j` is `k`. */
  function PartRead(done: seq<Block>, e: Block, k: nat, j: nat): Parsed
    requires j <= |e|
  {
    if j <= k then Parsed(done, e[..j]) else Parsed(done + [e[..j]], [])
  }

  lemma TakePart(base: nat, done: seq<Block>, e: Block, k: nat, j: nat)
    requires ShapedAt(e, base, k) && j < |e|
    ensures Take(PartRead(done, e, k, j), e[j], base) == Ok(PartRead(done, e, k, j + 1))
  {
    hide Strip;
    hide Indent;
    hide Preamble;
    hide Continuation;
    assert e[..j + 1] == e[..j] + [e[j]];
    if j > k {
      assert (done + [e[..j]])[|done| := e[..j + 1]] == done + [e[..j + 1]];
    }
  }

  /** A shaped entry after finished ones parses as itself. */
  lemma {:induction false} ParsePart(lines: Block, base: nat, done: seq<Block>, e: Block, k: nat, j: nat)
    requires Parse(lines, base) == Ok(Parsed(done, [])) && ShapedAt(e, base, k) && j <= |e|
    ensures Parse(lines + e[..j], base) == Ok(PartRead(done, e, k, j))
    decreases j
  {
    hide Take;
    hide Parse;
    hide ShapedAt;
    if j == 0 {
      assert lines + e[..0] == lines;
    } else {
      hide PartRead;
      ParsePart(lines, base, done, e, k, j - 1);
      TakePart(base, done, e, k, j - 1);
      ParseSnoc(lines + e[..j - 1], e[j - 1], base);
      assert lines + e[..j] == lines + e[..j - 1] + [e[j - 1]];
    }
  }

  lemma {:induction false} ParseConcat(blocks: seq<Block>, base: nat)
    requires AllShaped(blocks, base)
    ensures Parse(Concat(blocks), base) == Ok(Parsed(blocks, []))
  {
    hide Take;
    hide ShapedAt;
    if blocks != [] {
      var n := |blocks| - 1;
      ParseConcat(blocks[..n], base);
      assert Shaped(blocks[n], base);
      var k :| 0 <= k < |blocks[n]| && ShapedAt(blocks[n], base, k);
      ParsePart(Concat(blocks[..n]), base, blocks[..n], blocks[n], k, |blocks[n]|);
      assert blocks[n][..|blocks[n]|] == blocks[n];
      assert blocks[..n] + [blocks[n]] == blocks;
    }
  }

  /** A block splits into entries exactly one way: the way into shaped ones, when there is one. */
  lemma EntriesAreShaped(block: Block, blocks: seq<Block>)
    requires block != []
    ensures Entries(block) == Ok(blocks) <==> Concat(blocks) == block && AllShaped(blocks, Base(block))
  {
    var base := Base(block);
    if Concat(blocks) == block && AllShaped(blocks, base) { ParseConcat(blocks, base); }
    if Entries(block) == Ok(blocks) { ParseShapes(block, base); }
  }

  /** A comment or attribute at the block's indentation with no entry after it. */
  predicate Dangles(lines: Block, base: nat, j: nat) {
    j < |lines| && Starts(lines[j], base) && forall i :: j <= i < |lines| ==> !Plain(lines[i], base)
  }

  lemma {:induction false} ParseOutcome(lines: Block, base: nat)
    ensures Parse(lines, base).Err? <==> lines != [] && !Starts(lines[0], base)
    ensures Parse(lines, base).Err? ==> Parse(lines, base) == Err(IndentedStart)
    ensures Parse(lines, base).Ok? ==> (lines != [] <==> Parse(lines, base).value != Parsed([], []))
    ensures Parse(lines, base).Ok? ==> (Parse(lines, base).value.pending != [] <==> exists j :: Dangles(lines, base, j))
  {
    hide Strip;
    hide Indent;
    hide Preamble;
    hide Continuation;
    if lines != [] {
      var n := |lines| - 1;
      ParseOutcome(lines[..n], base);
      var r := Parse(lines, base);
      if r.Ok? {
        var before := Parse(lines[..n], base).value;
        if before.pending != [] && !Plain(lines[n], base) {
          var j :| Dangles(lines[..n], base, j);
          assert Dangles(lines, base, j);
        }
        if Starts(lines[n], base) && !Plain(lines[n], base) { assert Dangles(lines, base, n); }
        forall j | Dangles(lines, base, j) ensures j == n || Dangles(lines[..n], base, j) {
          assert !Plain(lines[n], base);
        }
      }
    }
  }

  /** A block is refused exactly when its first line opens no entry, or a comment or attribute has
      no entry after it. */
  lemma EntriesFail(block: Block)
    requires block != []
    ensures var base := Base(block);
      && (Entries(block) == Err(IndentedStart) <==> !Starts(block[0], base))
      && (Entries(block) == Err(DanglingPreamble) <==> Starts(block[0], base) && exists j :: Dangles(block, base, j))
      && (Entries(block).Err? ==> Entries(block).error == IndentedStart || Entries(block).error == DanglingPreamble)
  {
    ParseOutcome(block, Base(block));
  }

  // ----- the order of keys

  /** Code point by code point, as the source compares them. */
  predicate Leq(a: string, b: string) {
    a == [] || (b != [] && (a[0] < b[0] || (a[0] == b[0] && Leq(a[1..], b[1..]))))
  }

  lemma {:induction false} LeqTotal(a: string, b: string)
    ensures Leq(a, b) || Leq(b, a)
    ensures Leq(a, b) && Leq(b, a) ==> a == b
  {
    if a != [] && b != [] && a[0] == b[0] {
      LeqTotal(a[1..], b[1..]);
      assert a == [a[0]] + a[1..] && b == [b[0]] + b[1..];
    }
  }

  lemma {:induction false} LeqTransitive(a: string, b: string, c: string)
    requires Leq(a, b) && Leq(b, c)
    ensures Leq(a, c)
  {
    if a != [] && a[0] == b[0] == c[0] { LeqTransitive(a[1..], b[1..], c[1..]); }
  }

  ghost predicate NonEmpty(blocks: seq<Block>) { forall i :: 0 <= i < |blocks| ==> blocks[i] != [] }

  predicate InOrder(a: Block, b: Block, fold: string -> string)
    requires a != [] && b != []
  {
    Leq(Key(a, fold), Key(b, fold))
  }

  ghost predicate Ordered(blocks: seq<Block>, fold: string -> string)
    requires NonEmpty(blocks)
  {
    forall i, j :: 0 <= i < j < |blocks| ==> InOrder(blocks[i], blocks[j], fold)
  }

  /** The entries of one key, in order. */
  ghost function WithKey(blocks: seq<Block>, key: string, fold: string -> string): seq<Block>
    requires NonEmpty(blocks)
  {
    if blocks == [] then []
    else
      var n := |blocks| - 1;
      WithKey(blocks[..n], key, fold) + IfKey(blocks[n], key, fold)
  }

  function IfKey(entry: Block, key: string, fold: string -> string): seq<Block>
    requires entry != []
  {
    if Key(entry, fold) == key then [entry] else []
  }

  /** `entry` after every entry it does not come before. */
  function Insert(blocks: seq<Block>, entry: Block, fold: string -> string): (r: seq<Block>)
    requires NonEmpty(blocks) && entry != []
    ensures NonEmpty(r) && multiset(r) == multiset(blocks) + multiset{entry}
  {
    if blocks == [] then [entry]
    else
      var n := |blocks| - 1;
      assert blocks == blocks[..n] + [blocks[n]];
      if InOrder(blocks[n], entry, fold) then blocks + [entry]
      else Insert(blocks[..n], entry, fold) + [blocks[n]]
  }

  /** The stable sort by key. */
  function Sorted(blocks: seq<Block>, fold: string -> string): (r: seq<Block>)
    requires NonEmpty(blocks)
    ensures NonEmpty(r) && multiset(r) == multiset(blocks)
  {
    if blocks == [] then []
    else
      var n := |blocks| - 1;
      assert blocks == blocks[..n] + [blocks[n]];
      Insert(Sorted(blocks[..n], fold), blocks[n], fold)
  }

  lemma AllAfter(blocks: seq<Block>, last: Block, fold: string -> string)
    requires NonEmpty(blocks) && last != [] && Ordered(blocks, fold)
    requires blocks != [] ==> InOrder(blocks[|blocks| - 1], last, fold)
    ensures Ordered(blocks + [last], fold)
  {
    hide Key;
    var n := |blocks| - 1;
    forall i | 0 <= i <= n ensures InOrder(blocks[i], last, fold) {
      if i < n { LeqTransitive(Key(blocks[i], fold), Key(blocks[n], fold), Key(last, fold)); }
    }
  }

  lemma {:induction false} InsertOrders(blocks: seq<Block>, entry: Block, fold: string -> string)
    requires NonEmpty(blocks) && entry != [] && Ordered(blocks, fold)
    ensures Ordered(Insert(blocks, entry, fold), fold)
    ensures blocks != [] && !InOrder(blocks[|blocks| - 1], entry, fold) ==>
      forall e :: e in Insert(blocks, entry, fold) ==> e != [] && InOrder(e, blocks[|blocks| - 1], fold)
  {
    hide Key;
    if blocks != [] {
      var n := |blocks| - 1;
      if InOrder(blocks[n], entry, fold) {
        AllAfter(blocks, entry, fold);
      } else {
        InsertOrders(blocks[..n], entry, fold);
        var r := Insert(blocks[..n], entry, fold);
        LeqTotal(Key(blocks[n], fold), Key(entry, fold));
        LeqTotal(Key(blocks[n], fold), Key(blocks[n], fold));
        forall e | e in r ensures e != [] && InOrder(e, blocks[n], fold) {
          assert e in multiset(r);
        }
        assert r[|r| - 1] in r;
        AllAfter(r, blocks[n], fold);
      }
    }
  }

  lemma WithKeySnoc(blocks: seq<Block>, last: Block, key: string, fold: string -> string)
    requires NonEmpty(blocks) && last != []
    ensures WithKey(blocks + [last], key, fold) == WithKey(blocks, key, fold) + IfKey(last, key, fold)
  {
    assert (blocks + [last])[..|blocks|] == blocks;
  }

  lemma {:induction false} InsertIsStable(blocks: seq<Block>, entry: Block, key: string, fold: string -> string)
    requires NonEmpty(blocks) && entry != [] && Ordered(blocks, fold)
    ensures WithKey(Insert(blocks, entry, fold), key, fold) == WithKey(blocks + [entry], key, fold)
  {
    hide Key;
    hide IfKey;
    WithKeySnoc(blocks, entry, key, fold);
    if blocks != [] {
      var n := |blocks| - 1;
      if !InOrder(blocks[n], entry, fold) {
        InsertIsStable(blocks[..n], entry, key, fold);
        WithKeySnoc(blocks[..n], entry, key, fold);
        WithKeySnoc(Insert(blocks[..n], entry, fold), blocks[n], key, fold);
        LeqTotal(Key(blocks[n], fold), Key(entry, fold));
        KeysApart(WithKey(blocks[..n], key, fold), blocks[n], entry, key, fold);
      }
    }
  }

  lemma KeysApart(before: seq<Block>, a: Block, b: Block, key: string, fold: string -> string)
    requires a != [] && b != [] && Key(a, fold) != Key(b, fold)
    ensures before + IfKey(a, key, fold) + IfKey(b, key, fold) == before + IfKey(b, key, fold) + IfKey(a, key, fold)
  {
    hide Key;
  }

  lemma NothingAdded(a: seq<Block>, b: seq<Block>)
    requires a + [] == b + []
    ensures a == b
  {
    assert a + [] == a && b + [] == b;
  }

  lemma SameLast<T>(a: seq<T>, b: seq<T>, x: T, y: T)
    requires a + [x] == b + [y]
    ensures a == b && x == y
  {
    assert (a + [x])[..|a|] == a && (b + [y])[..|b|] == b;
    assert (a + [x])[|a|] == x && (b + [y])[|b|] == y;
  }

  /** A stable, key-ordered permutation of the entries. */
  lemma {:induction false} SortedIsStable(blocks: seq<Block>, fold: string -> string)
    requires NonEmpty(blocks)
    ensures Ordered(Sorted(blocks, fold), fold)
    ensures forall key :: WithKey(Sorted(blocks, fold), key, fold) == WithKey(blocks, key, fold)
  {
    hide Key;
    if blocks != [] {
      var n := |blocks| - 1;
      SortedIsStable(blocks[..n], fold);
      var r := Sorted(blocks[..n], fold);
      InsertOrders(r, blocks[n], fold);
      forall key ensures WithKey(Sorted(blocks, fold), key, fold) == WithKey(blocks, key, fold) {
        InsertIsStable(r, blocks[n], key, fold);
        WithKeySnoc(r, blocks[n], key, fold);
      }
    }
  }

  lemma {:induction false} WithKeyIn(blocks: seq<Block>, e: Block, fold: string -> string)
    requires NonEmpty(blocks) && e in blocks
    ensures e in WithKey(blocks, Key(e, fold), fold)
  {
    hide Key;
    var n := |blocks| - 1;
    if e != blocks[n] { WithKeyIn(blocks[..n], e, fold); }
  }

  lemma {:induction false} WithKeyOf(blocks: seq<Block>, key: string, fold: string -> string)
    requires NonEmpty(blocks)
    ensures forall e :: e in WithKey(blocks, key, fold) ==> e in blocks && Key(e, fold) == key
  {
    hide Key;
    if blocks != [] { WithKeyOf(blocks[..|blocks| - 1], key, fold); }
  }

  /** There is only one: any stable sort by key gives the same list. */
  lemma {:induction false} StableSortIsUnique(a: seq<Block>, b: seq<Block>, fold: string -> string)
    requires NonEmpty(a) && NonEmpty(b) && Ordered(a, fold) && Ordered(b, fold)
    requires forall key :: WithKey(a, key, fold) == WithKey(b, key, fold)
    ensures a == b
  {
    hide Key;
    if a == [] {
      if b != [] { WithKeyIn(b, b[0], fold); }
    } else if b == [] {
      WithKeyIn(a, a[0], fold);
    } else {
      var m, n := |a| - 1, |b| - 1;
      LastsAgree(a, b, fold);
      OrderedBefore(a, fold);
      OrderedBefore(b, fold);
      hide Ordered;
      hide WithKey;
      forall key ensures WithKey(a[..m], key, fold) == WithKey(b[..n], key, fold) {
        assert WithKey(a, key, fold) == WithKey(b, key, fold);
        RestAgrees(a, b, key, fold);
      }
      StableSortIsUnique(a[..m], b[..n], fold);
      assert a == a[..m] + [a[m]] && b == b[..n] + [b[n]];
    }
  }

  lemma OrderedBefore(a: seq<Block>, fold: string -> string)
    requires NonEmpty(a) && Ordered(a, fold) && a != []
    ensures NonEmpty(a[..|a| - 1]) && Ordered(a[..|a| - 1], fold)
  {
    hide InOrder;
  }

  lemma LastsAgree(a: seq<Block>, b: seq<Block>, fold: string -> string)
    requires NonEmpty(a) && NonEmpty(b) && Ordered(a, fold) && Ordered(b, fold) && a != [] && b != []
    requires forall key :: WithKey(a, key, fold) == WithKey(b, key, fold)
    ensures a[|a| - 1] == b[|b| - 1]
  {
    hide Key;
    var m, n := |a| - 1, |b| - 1;
    LastIsLargest(a, b, fold);
    LastIsLargest(b, a, fold);
    var k := Key(a[m], fold);
    LeqTotal(k, Key(b[n], fold));
    hide Ordered;
    hide Leq;
    assert WithKey(a, k, fold) == WithKey(b, k, fold);
    SameLast(WithKey(a[..m], k, fold), WithKey(b[..n], k, fold), a[m], b[n]);
  }

  lemma RestAgrees(a: seq<Block>, b: seq<Block>, key: string, fold: string -> string)
    requires NonEmpty(a) && NonEmpty(b) && a != [] && b != [] && a[|a| - 1] == b[|b| - 1]
    requires WithKey(a, key, fold) == WithKey(b, key, fold)
    ensures WithKey(a[..|a| - 1], key, fold) == WithKey(b[..|b| - 1], key, fold)
  {
    hide Key;
    var m, n := |a| - 1, |b| - 1;
    var x, y := WithKey(a[..m], key, fold), WithKey(b[..n], key, fold);
    if Key(a[m], fold) == key { SameLast(x, y, a[m], b[n]); } else { NothingAdded(x, y); }
  }

  lemma LastIsLargest(a: seq<Block>, b: seq<Block>, fold: string -> string)
    requires NonEmpty(a) && NonEmpty(b) && Ordered(b, fold) && a != [] && b != []
    requires forall key :: WithKey(a, key, fold) == WithKey(b, key, fold)
    ensures Leq(Key(a[|a| - 1], fold), Key(b[|b| - 1], fold))
  {
    hide Key;
    var e := a[|a| - 1];
    WithKeyIn(a, e, fold);
    WithKeyOf(b, Key(e, fold), fold);
    var i :| 0 <= i < |b| && b[i] == e;
    LeqTotal(Key(e, fold), Key(e, fold));
    if i < |b| - 1 { assert InOrder(b[i], b[|b| - 1], fold); }
  }

  lemma SortedTwice(blocks: seq<Block>, fold: string -> string)
    requires NonEmpty(blocks)
    ensures Sorted(Sorted(blocks, fold), fold) == Sorted(blocks, fold)
  {
    var r := Sorted(blocks, fold);
    SortedIsStable(blocks, fold);
    SortedIsStable(r, fold);
    StableSortIsUnique(Sorted(r, fold), r, fold);
  }
}
