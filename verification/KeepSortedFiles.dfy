/** Whole regions and files of marked lists (scripts/check-sorted.py, `sort_region` and `process`). */
module KeepSortedFiles {
  import opened Basics
  import opened KeepSorted

  type Fold = string -> string

  // ----- one block

  lemma EntriesNonEmpty(block: Block)
    requires block != [] && Entries(block).Ok?
    ensures NonEmpty(Entries(block).value)
  {
    EntriesAreShaped(block, Entries(block).value);
    var es := Entries(block).value;
    forall i | 0 <= i < |es| ensures es[i] != [] { assert Shaped(es[i], Base(block)); }
  }

  function SortBlock(block: Block, fold: Fold): Result<Block, Error>
    requires block != []
  {
    var r := Entries(block);
    if r.Err? then Err(r.error)
    else
      EntriesNonEmpty(block);
      Ok(Concat(Sorted(r.value, fold)))
  }

  lemma {:induction false} InsertLines(blocks: seq<Block>, entry: Block, fold: Fold)
    requires NonEmpty(blocks) && entry != []
    ensures multiset(Concat(Insert(blocks, entry, fold))) == multiset(Concat(blocks)) + multiset(entry)
  {
    hide InOrder;
    if blocks == [] {
      ConcatSnoc([], entry);
      assert [] + [entry] == [entry];
    } else {
      var n := |blocks| - 1;
      ConcatSnoc(blocks, entry);
      ConcatSnoc(Insert(blocks[..n], entry, fold), blocks[n]);
      InsertLines(blocks[..n], entry, fold);
    }
  }

  lemma {:induction false} SortedLines(blocks: seq<Block>, fold: Fold)
    requires NonEmpty(blocks)
    ensures multiset(Concat(Sorted(blocks, fold))) == multiset(Concat(blocks))
  {
    if blocks != [] {
      var n := |blocks| - 1;
      SortedLines(blocks[..n], fold);
      InsertLines(Sorted(blocks[..n], fold), blocks[n], fold);
    }
  }

  lemma SameLinesSameBase(a: Block, b: Block)
    requires a != [] && b != [] && multiset(a) == multiset(b)
    ensures Base(a) == Base(b)
  {
    forall l ensures l in a <==> l in b { assert l in multiset(a) <==> l in multiset(b); }
  }

  lemma SortedShaped(blocks: seq<Block>, base: nat, fold: Fold)
    requires NonEmpty(blocks) && AllShaped(blocks, base)
    ensures AllShaped(Sorted(blocks, fold), base)
  {
    var r := Sorted(blocks, fold);
    forall i | 0 <= i < |r| ensures Shaped(r[i], base) {
      assert r[i] in multiset(r);
      var j :| 0 <= j < |blocks| && blocks[j] == r[i];
      assert Shaped(blocks[j], base);
    }
  }

  /** Splitting a sorted block again gives exactly its sorted entries, so sorting it again changes
      nothing. */
  lemma SortedBlockResplits(block: Block, fold: Fold)
    requires block != [] && SortBlock(block, fold).Ok?
    ensures var r := SortBlock(block, fold).value;
      && multiset(r) == multiset(block) && |r| == |block| && r != []
      && Entries(block).Ok? && NonEmpty(Entries(block).value)
      && Entries(r) == Ok(Sorted(Entries(block).value, fold))
      && SortBlock(r, fold) == Ok(r)
  {
    hide Entries;
    hide Base;
    hide Sorted;
    var es := Entries(block).value;
    EntriesNonEmpty(block);
    EntriesAreShaped(block, es);
    var r := Concat(Sorted(es, fold));
    SortedLines(es, fold);
    assert |multiset(r)| == |r| && |multiset(block)| == |block|;
    SameLinesSameBase(block, r);
    SortedShaped(es, Base(block), fold);
    EntriesAreShaped(r, Sorted(es, fold));
    SortedTwice(es, fold);
  }

  // ----- a region

  datatype Walked = Walked(out: Block, block: Block)

  function Flush(w: Walked, fold: Fold): Result<Block, Error> {
    if w.block == [] then Ok(w.out)
    else
      var r := SortBlock(w.block, fold);
      if r.Err? then r else Ok(w.out + r.value)
  }

  function Walk(lines: Block, fold: Fold): Result<Walked, Error> {
    if lines == [] then Ok(Walked([], []))
    else
      var r := Walk(lines[..|lines| - 1], fold);
      if r.Err? then r else Go(r.value, lines[|lines| - 1], fold)
  }

  function Go(w: Walked, line: Line, fold: Fold): Result<Walked, Error> {
    if !Blank(line) then Ok(w.(block := w.block + [line]))
    else
      var r := Flush(w, fold);
      if r.Err? then Err(r.error) else Ok(Walked(r.value + [line], []))
  }

  /** `sort_region` */
  function SortRegion(lines: Block, fold: Fold): Result<Block, Error> {
    var r := Walk(lines, fold);
    if r.Err? then Err(r.error) else Flush(r.value, fold)
  }

  method ComputeSortRegion(lines: Block, fold: Fold) returns (r: Result<Block, Error>)
    ensures r == SortRegion(lines, fold)
  {
    hide SortBlock;
    var out: Block := [];
    var block: Block := [];
    for i := 0 to |lines|
      invariant Walk(lines[..i], fold) == Ok(Walked(out, block))
    {
      assert lines[..i + 1][..i] == lines[..i];
      WalkFails(lines, i + 1, fold);
      if !Blank(lines[i]) {
        block := block + [lines[i]];
      } else {
        var flushed := ComputeFlush(out, block, fold);
        if flushed.Err? { return flushed; }
        out, block := flushed.value + [lines[i]], [];
      }
    }
    assert lines[..|lines|] == lines;
    r := ComputeFlush(out, block, fold);
  }

  method ComputeFlush(out: Block, block: Block, fold: Fold) returns (r: Result<Block, Error>)
    ensures r == Flush(Walked(out, block), fold)
  {
    if block == [] { return Ok(out); }
    var es := ComputeEntries(block);
    if es.Err? { return Err(es.error); }
    EntriesNonEmpty(block);
    var sorted := Sorted(es.value, fold);
    var more: Block := [];
    for i := 0 to |sorted|
      invariant more == Concat(sorted[..i])
    {
      assert sorted[..i + 1][..i] == sorted[..i];
      more := more + sorted[i];
    }
    assert sorted[..|sorted|] == sorted;
    r := Ok(out + more);
  }

  lemma {:induction false} WalkFails(lines: Block, i: nat, fold: Fold)
    requires i <= |lines|
    ensures Walk(lines[..i], fold).Err? ==> Walk(lines, fold) == Walk(lines[..i], fold)
    decreases |lines|
  {
    if i == |lines| {
      assert lines[..i] == lines;
    } else {
      var n := |lines| - 1;
      WalkFails(lines[..n], i, fold);
      assert lines[..n][..i] == lines[..i];
    }
  }

  ghost predicate NoBlank(block: Block) { forall l :: l in block ==> !Blank(l) }

  lemma WalkSnoc(lines: Block, line: Line, fold: Fold)
    ensures Walk(lines + [line], fold) == var r := Walk(lines, fold); if r.Err? then r else Go(r.value, line, fold)
  {
    assert (lines + [line])[..|lines|] == lines;
  }

  lemma {:induction false} WalkBlock(lines: Block, out: Block, block: Block, fold: Fold)
    requires Walk(lines, fold) == Ok(Walked(out, [])) && NoBlank(block)
    ensures Walk(lines + block, fold) == Ok(Walked(out, block))
  {
    hide Blank;
    hide Walk;
    hide Flush;
    if block == [] {
      assert lines + block == lines;
    } else {
      var n := |block| - 1;
      WalkBlock(lines, out, block[..n], fold);
      WalkSnoc(lines + block[..n], block[n], fold);
      assert lines + block[..n] + [block[n]] == lines + block;
      assert block[..n] + [block[n]] == block;
      assert block[n] in block;
    }
  }

  lemma SameLinesNoBlank(a: Block, b: Block)
    requires multiset(a) == multiset(b) && NoBlank(a)
    ensures NoBlank(b)
  {
    forall l | l in b ensures !Blank(l) { assert l in multiset(b); }
  }

  /** What a walk has written walks to itself, and is the same lines. */
  ghost predicate WalkKept(w: Walked, lines: Block, fold: Fold) {
    && Walk(w.out, fold) == Ok(Walked(w.out, [])) && NoBlank(w.block)
    && multiset(w.out + w.block) == multiset(lines)
  }

  lemma FlushKeeps(w: Walked, lines: Block, fold: Fold)
    requires WalkKept(w, lines, fold) && Flush(w, fold).Ok?
    ensures var out := Flush(w, fold).value;
      && multiset(out) == multiset(lines) && |out| == |w.out| + |w.block|
      && exists block :: Walk(out, fold) == Ok(Walked(w.out, block)) && Flush(Walked(w.out, block), fold) == Ok(out)
  {
    hide SortBlock;
    hide Walk;
    if w.block == [] {
      assert w.out + w.block == w.out;
      assert Walk(w.out, fold) == Ok(Walked(w.out, []));
    } else {
      var sorted := SortBlock(w.block, fold).value;
      SortedBlockResplits(w.block, fold);
      SameLinesNoBlank(w.block, sorted);
      WalkBlock(w.out, w.out, sorted, fold);
    }
  }

  lemma GoKeeps(w: Walked, lines: Block, line: Line, fold: Fold)
    requires WalkKept(w, lines, fold) && Go(w, line, fold).Ok?
    ensures WalkKept(Go(w, line, fold).value, lines + [line], fold)
  {
    hide SortBlock;
    hide Blank;
    hide Walk;
    hide Flush;
    if Blank(line) {
      FlushKeeps(w, lines, fold);
      var out := Flush(w, fold).value;
      WalkSnoc(out, line, fold);
      assert out + [line] + [] == out + [line];
    } else {
      assert w.out + (w.block + [line]) == w.out + w.block + [line];
    }
  }

  lemma WalkNothing(fold: Fold)
    ensures WalkKept(Walked([], []), [], fold)
  {
    var nothing: Block := [];
    assert nothing + nothing == nothing;
  }

  lemma {:induction false} WalkKeeps(lines: Block, fold: Fold)
    requires Walk(lines, fold).Ok?
    ensures WalkKept(Walk(lines, fold).value, lines, fold)
  {
    hide Go;
    hide Blank;
    hide WalkKept;
    if lines == [] {
      WalkNothing(fold);
    } else {
      var n := |lines| - 1;
      WalkKeeps(lines[..n], fold);
      GoKeeps(Walk(lines[..n], fold).value, lines[..n], lines[n], fold);
      assert lines == lines[..n] + [lines[n]];
    }
  }

  /** A sorted region is the region's own lines, and sorts to itself. */
  lemma RegionIsFixpoint(lines: Block, fold: Fold)
    requires SortRegion(lines, fold).Ok?
    ensures var r := SortRegion(lines, fold).value;
      multiset(r) == multiset(lines) && |r| == |lines| && SortRegion(r, fold) == Ok(r)
  {
    hide SortBlock;
    var w := Walk(lines, fold).value;
    WalkKeeps(lines, fold);
    FlushKeeps(w, lines, fold);
    var r := SortRegion(lines, fold).value;
    assert |multiset(r)| == |r| && |multiset(lines)| == |lines|;
  }

  // ----- where a region's blocks end up

  /** A block of the region: lines `a` to `b`, between blank lines or the region's ends. */
  ghost predicate IsBlock(lines: Block, a: nat, b: nat) {
    && a < b <= |lines| && (forall i :: a <= i < b ==> !Blank(lines[i]))
    && (a > 0 ==> Blank(lines[a - 1])) && (b < |lines| ==> Blank(lines[b]))
  }

  /** Every block is sorted where it stands, and every blank line stays. */
  ghost predicate BlocksSorted(lines: Block, out: Block, fold: Fold) {
    && |out| == |lines|
    && (forall i :: 0 <= i < |lines| && Blank(lines[i]) ==> out[i] == lines[i])
    && (forall a: nat, b: nat :: IsBlock(lines, a, b) ==> SortBlock(lines[a..b], fold) == Ok(out[a..b]))
  }

  ghost predicate Placed(w: Walked, lines: Block, fold: Fold) {
    && |w.out| <= |lines| && w.block == lines[|w.out|..] && NoBlank(w.block)
    && (|w.out| > 0 ==> Blank(lines[|w.out| - 1]))
    && BlocksSorted(lines[..|w.out|], w.out, fold)
  }

  lemma LastBlock(lines: Block, k: nat, a: nat, b: nat)
    requires k <= |lines| && NoBlank(lines[k..]) && (k > 0 ==> Blank(lines[k - 1])) && IsBlock(lines, a, b)
    ensures (a == k && b == |lines|) || (b < k && IsBlock(lines[..k], a, b))
  {
    hide Blank;
    forall i | k <= i < |lines| ensures !Blank(lines[i]) { assert lines[k..][i - k] in lines[k..]; }
  }

  /** The last block, when there is one, goes after what is done. */
  ghost predicate LastSorted(lines: Block, k: nat, last: Block, fold: Fold) {
    && k <= |lines| && NoBlank(lines[k..]) && (k > 0 ==> Blank(lines[k - 1])) && |last| == |lines| - k
    && (k < |lines| ==> SortBlock(lines[k..], fold) == Ok(last))
  }

  lemma OneBlock(lines: Block, first: Block, last: Block, fold: Fold, a: nat, b: nat)
    requires |first| <= |lines| && BlocksSorted(lines[..|first|], first, fold) && LastSorted(lines, |first|, last, fold)
    requires IsBlock(lines, a, b)
    ensures a <= b <= |lines| && SortBlock(lines[a..b], fold) == Ok((first + last)[a..b])
  {
    hide SortBlock;
    hide Blank;
    var k := |first|;
    LastBlock(lines, k, a, b);
    hide IsBlock;
    if a == k {
      assert lines[a..b] == lines[k..] && (first + last)[a..b] == last;
    } else {
      assert lines[..k][a..b] == lines[a..b] && (first + last)[a..b] == first[a..b];
    }
  }

  lemma AllBlocks(lines: Block, first: Block, last: Block, fold: Fold)
    requires |first| <= |lines| && BlocksSorted(lines[..|first|], first, fold) && LastSorted(lines, |first|, last, fold)
    ensures BlocksSorted(lines, first + last, fold)
  {
    hide SortBlock;
    hide Blank;
    var k, out := |first|, first + last;
    forall a: nat, b: nat | IsBlock(lines, a, b)
      ensures a <= b <= |lines| && SortBlock(lines[a..b], fold) == Ok(out[a..b])
    {
      OneBlock(lines, first, last, fold, a, b);
    }
    hide IsBlock;
    forall i | k <= i < |lines| ensures !Blank(lines[i]) { assert lines[i] in lines[k..]; }
    forall i | 0 <= i < |lines| && Blank(lines[i]) ensures out[i] == lines[i] {
      assert i < k && lines[..k][i] == lines[i];
    }
  }

  lemma FlushPlaces(w: Walked, lines: Block, fold: Fold)
    requires Placed(w, lines, fold) && Flush(w, fold).Ok?
    ensures BlocksSorted(lines, Flush(w, fold).value, fold)
  {
    hide SortBlock;
    hide Blank;
    hide BlocksSorted;
    if w.block != [] {
      SortedBlockResplits(w.block, fold);
      AllBlocks(lines, w.out, SortBlock(w.block, fold).value, fold);
    } else {
      assert lines[..|lines|] == lines;
    }
  }

  lemma GoPlaces(w: Walked, lines: Block, line: Line, fold: Fold)
    requires Placed(w, lines, fold) && Go(w, line, fold).Ok?
    ensures Placed(Go(w, line, fold).value, lines + [line], fold)
  {
    hide SortBlock;
    hide Blank;
    hide Flush;
    var more := lines + [line];
    if Blank(line) {
      FlushPlaces(w, lines, fold);
      var out := Flush(w, fold).value;
      assert more[..|more|] == more;
      forall a: nat, b: nat | IsBlock(more, a, b)
        ensures a <= b <= |more| && SortBlock(more[a..b], fold) == Ok((out + [line])[a..b])
      {
        assert more[|lines|] == line;
        assert forall i :: 0 <= i < |lines| ==> more[i] == lines[i];
        assert IsBlock(lines, a, b);
        assert more[a..b] == lines[a..b] && (out + [line])[a..b] == out[a..b];
      }
    } else {
      assert more[..|w.out|] == lines[..|w.out|];
      assert more[|w.out|..] == lines[|w.out|..] + [line];
    }
  }

  lemma {:induction false} WalkPlaces(lines: Block, fold: Fold)
    requires Walk(lines, fold).Ok?
    ensures Placed(Walk(lines, fold).value, lines, fold)
  {
    hide Go;
    hide Blank;
    hide SortBlock;
    if lines != [] {
      var n := |lines| - 1;
      WalkPlaces(lines[..n], fold);
      hide Placed;
      GoPlaces(Walk(lines[..n], fold).value, lines[..n], lines[n], fold);
      assert lines == lines[..n] + [lines[n]];
    }
  }

  /** A region that can be sorted has every block sorted in its place. */
  lemma RegionSortsBlocks(lines: Block, fold: Fold)
    requires SortRegion(lines, fold).Ok?
    ensures BlocksSorted(lines, SortRegion(lines, fold).value, fold)
  {
    hide Walk;
    hide Flush;
    hide Placed;
    hide BlocksSorted;
    WalkPlaces(lines, fold);
    FlushPlaces(Walk(lines, fold).value, lines, fold);
  }

  lemma {:induction false} WalkErr(lines: Block, fold: Fold) returns (a: nat, b: nat)
    requires Walk(lines, fold).Err?
    ensures b < |lines| && Blank(lines[b]) && IsBlock(lines, a, b)
    ensures SortBlock(lines[a..b], fold) == Err(Walk(lines, fold).error)
  {
    hide SortBlock;
    hide Blank;
    var n := |lines| - 1;
    if Walk(lines[..n], fold).Err? {
      a, b := WalkErr(lines[..n], fold);
      assert lines[..n][a..b] == lines[a..b];
    } else {
      WalkPlaces(lines[..n], fold);
      var w := Walk(lines[..n], fold).value;
      a, b := |w.out|, n;
      assert lines[a..b] == lines[..n][a..];
      assert lines[..n][a..] == w.block;
      forall i | a <= i < b ensures !Blank(lines[i]) { assert lines[..n][a..][i - a] in w.block; }
    }
  }

  /** A region that cannot be sorted has a block that cannot. */
  lemma RegionFails(lines: Block, fold: Fold) returns (a: nat, b: nat)
    requires SortRegion(lines, fold).Err?
    ensures IsBlock(lines, a, b) && SortBlock(lines[a..b], fold) == Err(SortRegion(lines, fold).error)
  {
    hide SortBlock;
    hide Blank;
    hide Walk;
    if Walk(lines, fold).Err? {
      a, b := WalkErr(lines, fold);
    } else {
      WalkPlaces(lines, fold);
      var w := Walk(lines, fold).value;
      a, b := |w.out|, |lines|;
      assert lines[a..b] == lines[a..];
      forall i | a <= i < b ensures !Blank(lines[i]) { assert lines[a..][i - a] in w.block; }
    }
  }

  // ----- a file

  datatype Processed = Processed(out: Block, unsorted: seq<nat>)

  /** The first end marker from `from` on. */
  function NextEnd(lines: Block, from: nat): (r: nat)
    requires from <= |lines|
    ensures from <= r <= |lines| && (r < |lines| ==> Marker(lines[r], END))
    ensures forall j :: from <= j < r ==> !Marker(lines[j], END)
    decreases |lines| - from
  {
    if from == |lines| || Marker(lines[from], END) then from else NextEnd(lines, from + 1)
  }

  /** What `process` makes of the lines from `i` on, outside any region. */
  function Scan(lines: Block, i: nat, fold: Fold): Result<Processed, Error>
    requires i <= |lines|
    decreases |lines| - i
  {
    if i == |lines| then Ok(Processed([], []))
    else if !Marker(lines[i], START) then
      var rest := Scan(lines, i + 1, fold);
      if rest.Err? then rest else Ok(rest.value.(out := [lines[i]] + rest.value.out))
    else
      var end := NextEnd(lines, i + 1);
      if end == |lines| then Err(Unclosed(i + 1))
      else
        var region := lines[i + 1..end];
        var r := SortRegion(region, fold);
        if r.Err? then Err(InRegion(i + 1, r.error))
        else
          var rest := Scan(lines, end, fold);
          if rest.Err? then rest
          else Ok(Processed([lines[i]] + r.value + rest.value.out,
                            (if r.value != region then [i + 1] else []) + rest.value.unsorted))
  }

  function Process(lines: Block, fold: Fold): Result<Processed, Error> { Scan(lines, 0, fold) }

  method ComputeProcess(lines: Block, fold: Fold) returns (r: Result<Processed, Error>)
    ensures r == Process(lines, fold)
  {
    hide SortRegion;
    hide Marker;
    var out: Block := [];
    var unsorted: seq<nat> := [];
    var i := 0;
    AfterNothing(Process(lines, fold));
    while i < |lines|
      invariant 0 <= i <= |lines|
      invariant Process(lines, fold) == After(Processed(out, unsorted), Scan(lines, i, fold))
    {
      ghost var had := Processed(out, unsorted);
      out := out + [lines[i]];
      if !Marker(lines[i], START) {
        AfterLine(had, lines[i], Scan(lines, i + 1, fold));
        i := i + 1;
        continue;
      }
      var start := i + 1;
      var end := start;
      while end < |lines| && !Marker(lines[end], END)
        invariant start <= end <= |lines| && NextEnd(lines, start) == NextEnd(lines, end)
      {
        end := end + 1;
      }
      if end == |lines| { return Err(Unclosed(start)); }
      var region := lines[start..end];
      var sorted := ComputeSortRegion(region, fold);
      if sorted.Err? { return Err(InRegion(start, sorted.error)); }
      ghost var found: seq<nat> := if sorted.value != region then [start] else [];
      if sorted.value != region { unsorted := unsorted + [start]; }
      assert unsorted == had.unsorted + found;
      AfterOne(had, lines[i], sorted.value, found, Scan(lines, end, fold));
      out := out + sorted.value;
      i := end;
    }
    assert out + [] == out && unsorted + [] == unsorted;
    r := Ok(Processed(out, unsorted));
  }

  /** What is done, then the rest. */
  ghost function After(had: Processed, rest: Result<Processed, Error>): Result<Processed, Error> {
    if rest.Err? then rest
    else Ok(Processed(had.out + rest.value.out, had.unsorted + rest.value.unsorted))
  }

  lemma AfterNothing(rest: Result<Processed, Error>)
    ensures After(Processed([], []), rest) == rest
  {
    if rest.Ok? { assert [] + rest.value.out == rest.value.out && [] + rest.value.unsorted == rest.value.unsorted; }
  }

  lemma AfterOne(had: Processed, line: Line, sorted: Block, found: seq<nat>, rest: Result<Processed, Error>)
    ensures After(had, if rest.Err? then rest
                       else Ok(Processed([line] + sorted + rest.value.out, found + rest.value.unsorted)))
         == After(Processed(had.out + [line] + sorted, had.unsorted + found), rest)
  {
    if rest.Ok? {
      assert had.out + ([line] + sorted + rest.value.out) == had.out + [line] + sorted + rest.value.out;
      assert had.unsorted + (found + rest.value.unsorted) == had.unsorted + found + rest.value.unsorted;
    }
  }

  lemma AfterLine(had: Processed, line: Line, rest: Result<Processed, Error>)
    ensures After(had, if rest.Err? then rest else Ok(rest.value.(out := [line] + rest.value.out)))
         == After(had.(out := had.out + [line]), rest)
  {
    if rest.Ok? { assert had.out + ([line] + rest.value.out) == had.out + [line] + rest.value.out; }
  }

  lemma {:induction false} ScanFirst(lines: Block, i: nat, fold: Fold)
    requires i <= |lines| && Scan(lines, i, fold).Ok?
    ensures var out := Scan(lines, i, fold).value.out;
      |out| == |lines| - i && (i < |lines| ==> out[0] == lines[i])
    decreases |lines| - i
  {
    hide Marker;
    hide SortRegion;
    if i < |lines| {
      if !Marker(lines[i], START) {
        ScanFirst(lines, i + 1, fold);
      } else {
        var end := NextEnd(lines, i + 1);
        ScanFirst(lines, end, fold);
        RegionIsFixpoint(lines[i + 1..end], fold);
      }
    }
  }

  lemma {:induction false} NextEndIs(lines: Block, from: nat, end: nat)
    requires from <= end < |lines| && Marker(lines[end], END)
    requires forall j :: from <= j < end ==> !Marker(lines[j], END)
    ensures NextEnd(lines, from) == end
  {}

  /** No line of the sorted region ends it early. */
  lemma SortedHasNoEnd(region: Block, fold: Fold)
    requires SortRegion(region, fold).Ok? && forall l :: l in region ==> !Marker(l, END)
    ensures forall l :: l in SortRegion(region, fold).value ==> !Marker(l, END)
  {
    hide Marker;
    hide SortRegion;
    RegionIsFixpoint(region, fold);
    var r := SortRegion(region, fold).value;
    forall l | l in r ensures !Marker(l, END) { assert l in multiset(r); }
  }

  lemma ScanLine(lines: Block, i: nat, rest: Block, fold: Fold)
    requires i < |lines| && !Marker(lines[i], START) && Scan(lines, i + 1, fold) == Ok(Processed(rest, []))
    ensures Scan(lines, i, fold) == Ok(Processed([lines[i]] + rest, []))
  {
    hide Marker;
    hide SortRegion;
  }

  lemma ScanRegion(lines: Block, i: nat, end: nat, rest: Block, fold: Fold)
    requires i < end < |lines| && Marker(lines[i], START) && NextEnd(lines, i + 1) == end
    requires SortRegion(lines[i + 1..end], fold) == Ok(lines[i + 1..end])
    requires Scan(lines, end, fold) == Ok(Processed(rest, []))
    ensures Scan(lines, i, fold) == Ok(Processed([lines[i]] + lines[i + 1..end] + rest, []))
  {
    hide Marker;
    hide SortRegion;
    hide NextEnd;
    var nothing: seq<nat> := [];
    assert nothing + nothing == nothing;
  }

  lemma Parts(before: Block, line: Line, sorted: Block, rest: Block)
    requires rest != []
    ensures var lines := before + ([line] + sorted + rest);
      var end := |before| + 1 + |sorted|;
      && lines == before + [line] + sorted + rest
      && lines[|before|] == line && lines[end] == rest[0] && lines[|before| + 1..end] == sorted
  {}

  lemma RegionAgain(lines: Block, i: nat, end: nat, rest: Block, fold: Fold)
    requires i < end < |lines| && Marker(lines[i], START) && Marker(lines[end], END)
    requires forall l :: l in lines[i + 1..end] ==> !Marker(l, END)
    requires SortRegion(lines[i + 1..end], fold) == Ok(lines[i + 1..end])
    requires Scan(lines, end, fold) == Ok(Processed(rest, []))
    ensures Scan(lines, i, fold) == Ok(Processed([lines[i]] + lines[i + 1..end] + rest, []))
  {
    hide Marker;
    hide SortRegion;
    hide Scan;
    hide NextEnd;
    forall j | i + 1 <= j < end ensures !Marker(lines[j], END) { assert lines[j] in lines[i + 1..end]; }
    NextEndIs(lines, i + 1, end);
    ScanRegion(lines, i, end, rest, fold);
  }

  lemma Shift(a: Block, b: Block, s: nat, e: nat)
    requires s <= e <= |b|
    ensures (a + b)[|a| + s..|a| + e] == b[s..e]
  {}

  lemma {:induction false} ScanAgain(lines: Block, i: nat, before: Block, fold: Fold)
    requires i <= |lines| && |before| == i && Scan(lines, i, fold).Ok?
    ensures var out := Scan(lines, i, fold).value.out;
      Scan(before + out, i, fold) == Ok(Processed(out, []))
    decreases |lines| - i
  {
    hide Marker;
    hide SortRegion;
    if i < |lines| {
      var line := lines[i];
      if !Marker(line, START) {
        ScanAgain(lines, i + 1, before + [line], fold);
        var rest := Scan(lines, i + 1, fold).value.out;
        assert before + [line] + rest == before + ([line] + rest);
        ScanLine(before + ([line] + rest), i, rest, fold);
      } else {
        var end := NextEnd(lines, i + 1);
        var region := lines[i + 1..end];
        var sorted := SortRegion(region, fold).value;
        RegionIsFixpoint(region, fold);
        SortedHasNoEnd(region, fold);
        ScanAgain(lines, end, before + [line] + sorted, fold);
        ScanFirst(lines, end, fold);
        var rest := Scan(lines, end, fold).value.out;
        Parts(before, line, sorted, rest);
        RegionAgain(before + ([line] + sorted + rest), i, end, rest, fold);
      }
    }
  }

  /** Fixing is a fixpoint: what `process` writes, `process` accepts as it is, with nothing
      unsorted. */
  lemma FixIsFixpoint(lines: Block, fold: Fold)
    requires Process(lines, fold).Ok?
    ensures var out := Process(lines, fold).value.out; Process(out, fold) == Ok(Processed(out, []))
  {
    ScanAgain(lines, 0, [], fold);
    var out := Process(lines, fold).value.out;
    assert [] + out == out;
  }

  // ----- what changes and what does not

  /** Lines `s` to `e` are a region the scan from `i` on finds. */
  ghost predicate Region(lines: Block, i: nat, s: nat, e: nat)
    requires i <= |lines|
    decreases |lines| - i
  {
    if i == |lines| then false
    else if !Marker(lines[i], START) then Region(lines, i + 1, s, e)
    else
      var end := NextEnd(lines, i + 1);
      end < |lines| && ((s == i + 1 && e == end) || Region(lines, end, s, e))
  }

  lemma {:induction false} RegionBounds(lines: Block, i: nat, s: nat, e: nat)
    requires i <= |lines| && Region(lines, i, s, e)
    ensures i < s <= e < |lines|
    decreases |lines| - i
  {
    hide Marker;
    if !Marker(lines[i], START) {
      RegionBounds(lines, i + 1, s, e);
    } else {
      var end := NextEnd(lines, i + 1);
      if !(s == i + 1 && e == end) { RegionBounds(lines, end, s, e); }
    }
  }

  lemma ScanStep(lines: Block, i: nat, fold: Fold)
    requires i < |lines| && Scan(lines, i, fold).Ok?
    ensures var p := Scan(lines, i, fold).value;
      if !Marker(lines[i], START) then
        && Scan(lines, i + 1, fold).Ok?
        && p == Processed([lines[i]] + Scan(lines, i + 1, fold).value.out, Scan(lines, i + 1, fold).value.unsorted)
      else
        var end := NextEnd(lines, i + 1);
        && end < |lines| && SortRegion(lines[i + 1..end], fold).Ok? && Scan(lines, end, fold).Ok?
        && p.out == [lines[i]] + SortRegion(lines[i + 1..end], fold).value + Scan(lines, end, fold).value.out
        && (SortRegion(lines[i + 1..end], fold).value != lines[i + 1..end] ==> i + 1 in p.unsorted)
        && forall s :: s in Scan(lines, end, fold).value.unsorted ==> s in p.unsorted
  {
    hide Marker;
    hide SortRegion;
    hide NextEnd;
  }

  /** What the scan from `i` on does to the region from `s` to `e`. */
  lemma {:induction false} ScanSorts(lines: Block, i: nat, s: nat, e: nat, fold: Fold)
    requires i <= |lines| && Scan(lines, i, fold).Ok? && Region(lines, i, s, e)
    ensures var p := Scan(lines, i, fold).value;
      && i < s <= e < |lines| && |p.out| == |lines| - i
      && SortRegion(lines[s..e], fold) == Ok(p.out[s - i..e - i])
      && (p.out[s - i..e - i] != lines[s..e] ==> s in p.unsorted)
    decreases |lines| - i
  {
    hide Marker;
    hide SortRegion;
    hide Scan;
    hide NextEnd;
    RegionBounds(lines, i, s, e);
    ScanFirst(lines, i, fold);
    ScanStep(lines, i, fold);
    if !Marker(lines[i], START) {
      ScanSorts(lines, i + 1, s, e, fold);
      Shift([lines[i]], Scan(lines, i + 1, fold).value.out, s - i - 1, e - i - 1);
    } else {
      var end := NextEnd(lines, i + 1);
      var sorted := SortRegion(lines[i + 1..end], fold).value;
      RegionIsFixpoint(lines[i + 1..end], fold);
      ScanFirst(lines, end, fold);
      var rest := Scan(lines, end, fold).value.out;
      if s == i + 1 && e == end {
        Shift([lines[i]], sorted + rest, 0, |sorted|);
        assert [lines[i]] + sorted + rest == [lines[i]] + (sorted + rest);
        assert (sorted + rest)[0..|sorted|] == sorted;
      } else {
        ScanSorts(lines, end, s, e, fold);
        Shift([lines[i]] + sorted, rest, s - end, e - end);
      }
    }
  }

  lemma {:induction false} ScanReports(lines: Block, i: nat, s: nat, fold: Fold) returns (e: nat)
    requires i <= |lines| && Scan(lines, i, fold).Ok? && s in Scan(lines, i, fold).value.unsorted
    ensures Region(lines, i, s, e) && s <= e <= |lines| && SortRegion(lines[s..e], fold) != Ok(lines[s..e])
    decreases |lines| - i
  {
    hide Marker;
    hide SortRegion;
    if !Marker(lines[i], START) {
      e := ScanReports(lines, i + 1, s, fold);
    } else {
      var end := NextEnd(lines, i + 1);
      if s == i + 1 && SortRegion(lines[i + 1..end], fold) != Ok(lines[i + 1..end]) {
        e := end;
      } else {
        e := ScanReports(lines, end, s, fold);
      }
    }
  }

  lemma {:induction false} ScanSpares(lines: Block, i: nat, j: nat, fold: Fold)
    requires i <= j < |lines| && Scan(lines, i, fold).Ok?
    requires forall s: nat, e: nat :: Region(lines, i, s, e) ==> !(s <= j < e)
    ensures var out := Scan(lines, i, fold).value.out; j - i < |out| && out[j - i] == lines[j]
    decreases |lines| - i
  {
    hide Marker;
    hide SortRegion;
    ScanFirst(lines, i, fold);
    if !Marker(lines[i], START) {
      if j > i {
        var next := i + 1;
        forall s: nat, e: nat | Region(lines, next, s, e) ensures !(s <= j < e) { assert Region(lines, i, s, e); }
        ScanSpares(lines, next, j, fold);
      }
    } else if j > i {
      var end := NextEnd(lines, i + 1);
      assert Region(lines, i, i + 1, end);
      RegionIsFixpoint(lines[i + 1..end], fold);
      forall s: nat, e: nat | Region(lines, end, s, e) ensures !(s <= j < e) { assert Region(lines, i, s, e); }
      ScanSpares(lines, end, j, fold);
    }
  }

  ghost predicate InSomeRegion(lines: Block, j: nat) {
    exists s: nat, e: nat :: Region(lines, 0, s, e) && s <= j < e
  }

  ghost predicate RegionChanged(lines: Block, out: Block, s: nat) {
    exists e: nat :: Region(lines, 0, s, e) && s <= e <= |lines| && e <= |out| && out[s..e] != lines[s..e]
  }

  /** A processed file has every region sorted in place and every other line as it was, and reports
      exactly the regions that changed. */
  lemma ProcessSorts(lines: Block, fold: Fold)
    requires Process(lines, fold).Ok?
    ensures var p := Process(lines, fold).value;
      && |p.out| == |lines|
      && (forall s: nat, e: nat :: Region(lines, 0, s, e) ==>
            s <= e < |lines| && SortRegion(lines[s..e], fold) == Ok(p.out[s..e]))
      && (forall j: nat :: j < |lines| && !InSomeRegion(lines, j) ==> p.out[j] == lines[j])
      && (forall s: nat :: s in p.unsorted <==> RegionChanged(lines, p.out, s))
  {
    hide SortRegion;
    hide Scan;
    hide Region;
    var p := Process(lines, fold).value;
    ScanFirst(lines, 0, fold);
    forall s: nat, e: nat | Region(lines, 0, s, e)
      ensures s <= e < |lines| && SortRegion(lines[s..e], fold) == Ok(p.out[s..e])
              && (p.out[s..e] != lines[s..e] ==> s in p.unsorted)
    {
      ScanSorts(lines, 0, s, e, fold);
    }
    forall j: nat | j < |lines| && !InSomeRegion(lines, j) ensures p.out[j] == lines[j] {
      forall s: nat, e: nat | Region(lines, 0, s, e) ensures !(s <= j < e) {}
      ScanSpares(lines, 0, j, fold);
    }
    forall s: nat | s in p.unsorted ensures RegionChanged(lines, p.out, s) {
      var e := ScanReports(lines, 0, s, fold);
      ScanSorts(lines, 0, s, e, fold);
    }
  }

  // ----- when a file is refused

  /** A start marker at `s - 1` that no end marker follows. */
  ghost predicate LeftOpen(lines: Block, i: nat, s: nat) {
    i < s <= |lines| && Marker(lines[s - 1], START) && forall j :: s <= j < |lines| ==> !Marker(lines[j], END)
  }

  ghost predicate RegionBad(lines: Block, i: nat, fold: Fold, s: nat, e: nat) {
    i <= |lines| && Region(lines, i, s, e) && s <= e <= |lines| && SortRegion(lines[s..e], fold).Err?
  }

  /** What an error says is so. */
  ghost predicate Explains(lines: Block, i: nat, fold: Fold, error: Error) {
    match error
    case Unclosed(s) => LeftOpen(lines, i, s)
    case InRegion(s, why) =>
      exists e: nat :: RegionBad(lines, i, fold, s, e) && SortRegion(lines[s..e], fold) == Err(why)
    case _ => false
  }

  lemma {:induction false} ScanExplains(lines: Block, i: nat, fold: Fold)
    requires i <= |lines| && Scan(lines, i, fold).Err?
    ensures Explains(lines, i, fold, Scan(lines, i, fold).error)
    decreases |lines| - i
  {
    hide Marker;
    hide SortRegion;
    if !Marker(lines[i], START) {
      ScanExplains(lines, i + 1, fold);
      ExplainsEarlier(lines, i, i + 1, fold, Scan(lines, i, fold).error);
    } else {
      var end := NextEnd(lines, i + 1);
      if end < |lines| {
        if SortRegion(lines[i + 1..end], fold).Err? {
          assert RegionBad(lines, i, fold, i + 1, end);
        } else {
          ScanExplains(lines, end, fold);
          ExplainsEarlier(lines, i, end, fold, Scan(lines, i, fold).error);
        }
      }
    }
  }

  lemma ExplainsEarlier(lines: Block, i: nat, j: nat, fold: Fold, error: Error)
    requires i < j <= |lines| && Explains(lines, j, fold, error)
    requires if Marker(lines[i], START) then j == NextEnd(lines, i + 1) < |lines| else j == i + 1
    ensures Explains(lines, i, fold, error)
  {
    hide Marker;
    hide SortRegion;
    if error.InRegion? {
      var s, why := error.line, error.why;
      var e: nat :| RegionBad(lines, j, fold, s, e) && SortRegion(lines[s..e], fold) == Err(why);
      assert RegionBad(lines, i, fold, s, e);
    }
  }

  lemma {:induction false} OpenFails(lines: Block, i: nat, fold: Fold, s: nat)
    requires i <= |lines| && LeftOpen(lines, i, s)
    ensures Scan(lines, i, fold).Err?
    decreases |lines| - i
  {
    hide Marker;
    hide SortRegion;
    if !Marker(lines[i], START) {
      OpenFails(lines, i + 1, fold, s);
    } else {
      var end := NextEnd(lines, i + 1);
      if end < |lines| && s > end { OpenFails(lines, end, fold, s); }
    }
  }

  lemma {:induction false} BadFails(lines: Block, i: nat, fold: Fold, s: nat, e: nat)
    requires RegionBad(lines, i, fold, s, e)
    ensures Scan(lines, i, fold).Err?
    decreases |lines| - i
  {
    hide Marker;
    hide SortRegion;
    if !Marker(lines[i], START) {
      BadFails(lines, i + 1, fold, s, e);
    } else {
      var end := NextEnd(lines, i + 1);
      if !(s == i + 1 && e == end) { BadFails(lines, end, fold, s, e); }
    }
  }

  /** A file is refused exactly when a start marker has no end marker after it or some region cannot be
      sorted, and the error names one of these. */
  lemma ProcessFails(lines: Block, fold: Fold)
    ensures Process(lines, fold).Err? <==>
      (exists s: nat :: LeftOpen(lines, 0, s)) || (exists s: nat, e: nat :: RegionBad(lines, 0, fold, s, e))
    ensures Process(lines, fold).Err? ==> Explains(lines, 0, fold, Process(lines, fold).error)
  {
    hide Scan;
    hide LeftOpen;
    hide RegionBad;
    if Process(lines, fold).Err? {
      ScanExplains(lines, 0, fold);
      var error := Process(lines, fold).error;
      if error.Unclosed? { assert LeftOpen(lines, 0, error.line); }
    }
    if s: nat :| LeftOpen(lines, 0, s) { OpenFails(lines, 0, fold, s); }
    if s: nat, e: nat :| RegionBad(lines, 0, fold, s, e) { BadFails(lines, 0, fold, s, e); }
  }

  /** A region lies between a start marker and the first end marker after it. */
  lemma {:induction false} RegionIsMarked(lines: Block, i: nat, s: nat, e: nat)
    requires i <= |lines| && Region(lines, i, s, e)
    ensures i < s <= e < |lines| && Marker(lines[s - 1], START) && e == NextEnd(lines, s)
    decreases |lines| - i
  {
    hide Marker;
    if !Marker(lines[i], START) {
      RegionIsMarked(lines, i + 1, s, e);
    } else {
      var end := NextEnd(lines, i + 1);
      if !(s == i + 1 && e == end) { RegionIsMarked(lines, end, s, e); }
    }
  }

  /** Line `k` opens a region or lies in one. */
  ghost predicate Belongs(lines: Block, i: nat, k: nat, s: nat, e: nat) {
    i <= |lines| && Region(lines, i, s, e) && s <= k + 1 <= e
  }

  /** Every start marker that an end marker follows opens a region or lies in one. */
  lemma {:induction false} MarkedIsRegion(lines: Block, i: nat, k: nat) returns (s: nat, e: nat)
    requires i <= k < |lines| && Marker(lines[k], START) && NextEnd(lines, k + 1) < |lines|
    ensures Belongs(lines, i, k, s, e)
    decreases |lines| - i
  {
    hide Marker;
    if !Marker(lines[i], START) {
      s, e := MarkedIsRegion(lines, i + 1, k);
    } else {
      var end := NextEnd(lines, i + 1);
      if end <= k {
        s, e := MarkedIsRegion(lines, end, k);
      } else {
        assert !Marker(lines[NextEnd(lines, k + 1)], END) || end < |lines|;
        s, e := i + 1, end;
      }
    }
  }
}
