/** Byte-bounded UTF-8 text (crates/sheprd-acp/src/project.rs, `bounded` and `clip`, and
    project/activity.rs, `clip`). */
module Texts {
  import opened Basics
  import opened Transcripts

  const MAX_ENTRY_TEXT: nat := 256 * 1024

  /** "\n… (truncated)" in UTF-8. */
  const TRUNCATED: Str :=
    [0x0A, 0xE2, 0x80, 0xA6, 0x20, 0x28, 0x74, 0x72, 0x75, 0x6E, 0x63, 0x61, 0x74, 0x65, 0x64, 0x29]

  // ----- UTF-8, by the grammar in section 4 of RFC 3629

  predicate Tail(b: byte) { 0x80 <= b <= 0xBF }

  predicate Tails(s: Str, from: nat, to: nat) {
    to <= |s| && forall i :: from <= i < to ==> Tail(s[i])
  }

  /** The length of the character `s` starts with, 0 when it starts with none. */
  function CharLen(s: Str): nat {
    if s == [] then 0
    else if s[0] <= 0x7F then 1
    else if 0xC2 <= s[0] <= 0xDF && Tails(s, 1, 2) then 2
    else if 0xE0 <= s[0] <= 0xEF && Tails(s, 1, 3) && (s[0] == 0xE0 ==> s[1] >= 0xA0) && (s[0] == 0xED ==> s[1] <= 0x9F)
    then 3
    else if 0xF0 <= s[0] <= 0xF4 && Tails(s, 1, 4) && (s[0] == 0xF0 ==> s[1] >= 0x90) && (s[0] == 0xF4 ==> s[1] <= 0x8F)
    then 4
    else 0
  }

  predicate Utf8(s: Str) {
    s == [] || (0 < CharLen(s) && Utf8(s[CharLen(s)..]))
  }

  predicate IsCharBoundary(s: Str, i: nat) {
    i == 0 || i == |s| || (i < |s| && !Tail(s[i]))
  }

  lemma CharShape(s: Str)
    requires CharLen(s) > 0
    ensures CharLen(s) <= |s| && CharLen(s) <= 4 && !Tail(s[0])
    ensures forall i :: 1 <= i < CharLen(s) ==> Tail(s[i])
  {}

  /** Only the first character's bytes decide how long it is. */
  lemma CharLocal(s: Str, t: Str)
    requires CharLen(s) > 0
    ensures CharLen(s[..CharLen(s)] + t) == CharLen(s)
  {
    CharShape(s);
    var n := CharLen(s);
    var u := s[..n] + t;
    assert forall i :: 0 <= i < n ==> u[i] == s[i];
  }

  lemma {:induction false} Utf8Concat(s: Str, t: Str)
    requires Utf8(s) && Utf8(t)
    ensures Utf8(s + t)
    decreases |s|
  {
    hide CharLen;
    if s == [] {
      assert s + t == t;
    } else {
      var n := CharLen(s);
      CharShape(s);
      Utf8Concat(s[n..], t);
      CharLocal(s, s[n..] + t);
      assert s[..n] + (s[n..] + t) == s + t;
      assert (s + t)[n..] == s[n..] + t;
    }
  }

  /** Cutting at a character boundary leaves two valid texts. */
  lemma {:induction false} BoundarySplits(s: Str, i: nat)
    requires Utf8(s) && i <= |s| && IsCharBoundary(s, i)
    ensures Utf8(s[..i]) && Utf8(s[i..])
    decreases |s|
  {
    hide CharLen;
    if i == 0 {
      assert s[0..] == s;
    } else {
      var n := CharLen(s);
      CharShape(s);
      assert n <= i;
      BoundarySplits(s[n..], i - n);
      assert s[n..][i - n..] == s[i..];
      CharLocal(s, s[n..][..i - n]);
      assert s[..n] + s[n..][..i - n] == s[..i];
      assert s[..i][n..] == s[n..][..i - n];
    }
  }

  /** The last boundary at or before `i`. */
  function Floor(s: Str, i: nat): (j: nat)
    requires i <= |s|
    ensures j <= i && IsCharBoundary(s, j)
    ensures forall k :: j < k <= i ==> !IsCharBoundary(s, k)
  {
    if IsCharBoundary(s, i) then i else Floor(s, i - 1)
  }

  /** In valid text a boundary is never more than three bytes back. */
  lemma {:induction false} FloorIsNear(s: Str, i: nat)
    requires Utf8(s) && i <= |s|
    ensures i <= Floor(s, i) + 3
    decreases |s|
  {
    hide CharLen;
    if s != [] {
      var n := CharLen(s);
      CharShape(s);
      if n <= i {
        FloorIsNear(s[n..], i - n);
        if n < |s| { CharShape(s[n..]); }
        var j := Floor(s[n..], i - n);
        assert IsCharBoundary(s, n + j);
      }
    }
  }

  /** `clip`: the part of `text` that fits after `have` bytes, marked where it was cut. */
  function Clip(have: nat, text: Str): Option<Str> {
    if MAX_ENTRY_TEXT < have || MAX_ENTRY_TEXT - have < |TRUNCATED| + 4 then None
    else if |text| <= MAX_ENTRY_TEXT - have then Some(text)
    else Some(text[..Floor(text, MAX_ENTRY_TEXT - have - |TRUNCATED|)] + TRUNCATED)
  }

  method ComputeClip(have: nat, text: Str) returns (r: Option<Str>, ghost steps: nat)
    ensures r == Clip(have, text)
    ensures Utf8(text) ==> steps <= 3
  {
    steps := 0;
    if MAX_ENTRY_TEXT < have { return None, 0; }
    var room := MAX_ENTRY_TEXT - have;
    if room < |TRUNCATED| + 4 { return None, 0; }
    if |text| <= room { return Some(text), 0; }
    var start := room - |TRUNCATED|;
    var cut := start;
    while !IsCharBoundary(text, cut)
      invariant 0 <= cut <= start && steps == start - cut && Floor(text, start) == Floor(text, cut)
      decreases cut
    {
      cut := cut - 1;
      steps := steps + 1;
    }
    if Utf8(text) { FloorIsNear(text, start); }
    r := Some(text[..cut] + TRUNCATED);
  }

  function Bounded(text: Str): Str {
    var r := Clip(0, text);
    if r.None? then [] else r.value
  }

  /** Every text an entry starts with is valid and within the limit. */
  lemma BoundedFits(text: Str)
    requires Utf8(text)
    ensures |Bounded(text)| <= MAX_ENTRY_TEXT && Utf8(Bounded(text))
  {
    ClipFits([], text);
  }

  lemma MarkerIsUtf8()
    ensures Utf8(TRUNCATED)
  {
    assert CharLen(TRUNCATED) == 1;
    var t := TRUNCATED[1..];
    assert t[0] == 0xE2 && CharLen(t) == 3;
    var u := t[3..];
    AsciiIsUtf8(u);
  }

  lemma {:induction false} AsciiIsUtf8(s: Str)
    requires forall i :: 0 <= i < |s| ==> s[i] <= 0x7F
    ensures Utf8(s)
    decreases |s|
  {
    if s != [] { AsciiIsUtf8(s[1..]); }
  }

  /** Nothing more is appended to a text this long. */
  predicate Full(text: Str) { MAX_ENTRY_TEXT < |text| + |TRUNCATED| + 4 }

  /** A clipped chunk keeps the text valid and bounded; a cut one fills it to within three bytes. */
  lemma ClipFits(text: Str, chunk: Str)
    requires Utf8(text) && Utf8(chunk) && |text| <= MAX_ENTRY_TEXT
    ensures var r := Clip(|text|, chunk);
      && (r.None? <==> Full(text))
      && (r.Some? ==> Utf8(r.value) && Utf8(text + r.value) && |text + r.value| <= MAX_ENTRY_TEXT)
      && (r.Some? && r.value != chunk ==> MAX_ENTRY_TEXT - 3 <= |text + r.value| && Full(text + r.value))
  {
    hide Utf8;
    hide CharLen;
    if !Full(text) && |chunk| > MAX_ENTRY_TEXT - |text| {
      var start := MAX_ENTRY_TEXT - |text| - |TRUNCATED|;
      var cut := Floor(chunk, start);
      FloorIsNear(chunk, start);
      BoundarySplits(chunk, cut);
      MarkerIsUtf8();
      Utf8Concat(chunk[..cut], TRUNCATED);
    }
    if !Full(text) { Utf8Concat(text, Clip(|text|, chunk).value); }
  }

  // ----- a stream of chunks into one entry

  /** What one chunk does to the entry's text; an empty chunk is no change. */
  function Add(text: Str, chunk: Str): Str {
    var r := Clip(|text|, chunk);
    if chunk == [] || r.None? then text else text + r.value
  }

  function Streamed(chunks: seq<Str>): Str {
    if chunks == [] then [] else Add(Streamed(chunks[..|chunks| - 1]), chunks[|chunks| - 1])
  }

  function Concat(chunks: seq<Str>): Str {
    if chunks == [] then [] else Concat(chunks[..|chunks| - 1]) + chunks[|chunks| - 1]
  }

  /** The first `k` chunks whole, everything so far or until the text was full. */
  ghost predicate Whole(text: Str, chunks: seq<Str>, k: nat)
    requires k <= |chunks|
  {
    text == Concat(chunks[..k]) && (Full(text) || k == |chunks|)
  }

  /** The first `k` chunks whole, then the next one cut at a character boundary and marked. */
  ghost predicate Cut(text: Str, chunks: seq<Str>, k: nat, cut: nat)
    requires k < |chunks| && cut < |chunks[k]|
  {
    && IsCharBoundary(chunks[k], cut)
    && text == Concat(chunks[..k]) + chunks[k][..cut] + TRUNCATED
    && MAX_ENTRY_TEXT - 3 <= |text|
  }

  ghost predicate Shaped(text: Str, chunks: seq<Str>) {
    || (exists k :: 0 <= k <= |chunks| && Whole(text, chunks, k))
    || (exists k, cut :: 0 <= k < |chunks| && 0 <= cut < |chunks[k]| && Cut(text, chunks, k, cut))
  }

  lemma ShapedMore(text: Str, chunks: seq<Str>, chunk: Str)
    requires Shaped(text, chunks) && Full(text)
    ensures Shaped(text, chunks + [chunk])
  {
    var more := chunks + [chunk];
    if k :| 0 <= k <= |chunks| && Whole(text, chunks, k) {
      assert more[..k] == chunks[..k];
      assert Whole(text, more, k);
    } else {
      var k, cut :| 0 <= k < |chunks| && 0 <= cut < |chunks[k]| && Cut(text, chunks, k, cut);
      assert more[..k] == chunks[..k] && more[k] == chunks[k];
      assert Cut(text, more, k, cut);
    }
  }

  lemma ConcatSnoc(chunks: seq<Str>, chunk: Str)
    ensures Concat(chunks + [chunk]) == Concat(chunks) + chunk
  {
    assert (chunks + [chunk])[..|chunks|] == chunks;
  }

  lemma AddCuts(text: Str, chunk: Str)
    requires |text| <= MAX_ENTRY_TEXT && !Full(text) && |chunk| > MAX_ENTRY_TEXT - |text|
    ensures var cut := Floor(chunk, MAX_ENTRY_TEXT - |text| - |TRUNCATED|);
      Add(text, chunk) == text + chunk[..cut] + TRUNCATED
  {
    var cut := Floor(chunk, MAX_ENTRY_TEXT - |text| - |TRUNCATED|);
    assert text + (chunk[..cut] + TRUNCATED) == text + chunk[..cut] + TRUNCATED;
  }

  lemma ShapedAdd(text: Str, chunks: seq<Str>, chunk: Str)
    requires text == Concat(chunks) && Utf8(text) && Utf8(chunk) && |text| <= MAX_ENTRY_TEXT && !Full(text)
    ensures Shaped(Add(text, chunk), chunks + [chunk])
  {
    hide Utf8;
    hide CharLen;
    hide Concat;
    var more := chunks + [chunk];
    assert more[..|chunks|] == chunks && more[..|more|] == more;
    ClipFits(text, chunk);
    if |chunk| <= MAX_ENTRY_TEXT - |text| {
      ConcatSnoc(chunks, chunk);
      assert Add(text, chunk) == text + chunk;
      assert Whole(Add(text, chunk), more, |more|);
    } else {
      var cut := Floor(chunk, MAX_ENTRY_TEXT - |text| - |TRUNCATED|);
      AddCuts(text, chunk);
      assert Cut(Add(text, chunk), more, |chunks|, cut);
    }
  }

  lemma AddWhole(text: Str, chunk: Str)
    requires Utf8(text) && Utf8(chunk) && |text| <= MAX_ENTRY_TEXT
    ensures |Add(text, chunk)| <= MAX_ENTRY_TEXT && Utf8(Add(text, chunk))
    ensures Full(text) ==> Add(text, chunk) == text
    ensures !Full(Add(text, chunk)) ==> Add(text, chunk) == text + chunk
  {
    hide Utf8;
    ClipFits(text, chunk);
    if chunk == [] { assert text + chunk == text; }
  }

  /** Whatever is streamed into one entry, its text is valid UTF-8 of at most 262144 bytes: all of
      the stream, a whole-chunk prefix that filled it, or such a prefix with one marked cut. */
  lemma {:induction false} StreamIsShaped(chunks: seq<Str>)
    requires forall c :: c in chunks ==> Utf8(c)
    ensures |Streamed(chunks)| <= MAX_ENTRY_TEXT && Utf8(Streamed(chunks)) && Shaped(Streamed(chunks), chunks)
    ensures !Full(Streamed(chunks)) ==> Streamed(chunks) == Concat(chunks)
  {
    hide Utf8;
    if chunks == [] {
      assert Whole([], chunks, 0);
      EmptyIsUtf8();
    } else {
      hide Shaped;
      hide Add;
      var n := |chunks| - 1;
      var before, chunk := chunks[..n], chunks[n];
      var text := Streamed(before);
      StreamIsShaped(before);
      AddWhole(text, chunk);
      assert chunks == before + [chunk];
      if Full(text) {
        ShapedMore(text, before, chunk);
      } else {
        ShapedAdd(text, before, chunk);
      }
    }
  }

  lemma EmptyIsUtf8()
    ensures Utf8([])
  {}

  /** Once a chunk was refused or cut, no chunk is ever appended again. */
  lemma {:induction false} FullStaysFull(chunks: seq<Str>, more: seq<Str>)
    requires Full(Streamed(chunks))
    ensures Streamed(chunks + more) == Streamed(chunks)
  {
    if more == [] {
      assert chunks + more == chunks;
    } else {
      var n := |more| - 1;
      FullStaysFull(chunks, more[..n]);
      assert (chunks + more)[..|chunks| + n] == chunks + more[..n];
    }
  }

  // ----- an activity's line

  function FirstLine(text: Str): Str {
    if text == [] || text[0] == 0x0A then [] else [text[0]] + FirstLine(text[1..])
  }

  predicate Blank(b: byte) { b == 0x20 || 0x09 <= b <= 0x0D }

  function Trim(text: Str): Str {
    if text == [] then []
    else if Blank(text[0]) then Trim(text[1..])
    else if Blank(text[|text| - 1]) then Trim(text[..|text| - 1])
    else text
  }

  /** The first line, trimmed, cut to what an activity may carry. */
  function ActivityClip(text: Str): (r: Str)
    ensures |r| <= MAX_ACTIVITY_TEXT
  {
    var line := Trim(FirstLine(text));
    line[..Floor(line, if |line| < MAX_ACTIVITY_TEXT then |line| else MAX_ACTIVITY_TEXT)]
  }

  lemma {:induction false} FirstLineIs(text: Str)
    ensures var n := |FirstLine(text)|;
      && n <= |text| && FirstLine(text) == text[..n] && (n < |text| ==> text[n] == 0x0A)
      && forall k :: 0 <= k < n ==> text[k] != 0x0A
    decreases |text|
  {
    if text != [] && text[0] != 0x0A {
      FirstLineIs(text[1..]);
      var n := |FirstLine(text[1..])|;
      assert text[..n + 1] == [text[0]] + text[1..][..n];
      assert forall k :: 1 <= k < n + 1 ==> text[k] == text[1..][k - 1];
    }
  }

  ghost predicate AllBlank(text: Str, from: nat, to: nat) {
    to <= |text| && forall k :: from <= k < to ==> Blank(text[k])
  }

  lemma {:induction false} TrimIs(text: Str) returns (i: nat, j: nat)
    ensures i <= j <= |text| && Trim(text) == text[i..j] && AllBlank(text, 0, i) && AllBlank(text, j, |text|)
    ensures i < j ==> !Blank(text[i]) && !Blank(text[j - 1])
    decreases |text|
  {
    i, j := 0, |text|;
    assert text[0..|text|] == text;
    if text != [] {
      if Blank(text[0]) {
        var a, b := TrimIs(text[1..]);
        i, j := a + 1, b + 1;
        assert text[i..j] == text[1..][a..b];
        assert forall k :: 1 <= k < |text| ==> text[k] == text[1..][k - 1];
      } else if Blank(text[|text| - 1]) {
        i, j := TrimIs(text[..|text| - 1]);
        assert text[i..j] == text[..|text| - 1][i..j];
        assert forall k :: 0 <= k < |text| - 1 ==> text[k] == text[..|text| - 1][k];
      }
    }
  }

  /** An activity's line is the first line from its first character that is no blank to its last, or as
      much of it as fits, cut at most three bytes short between characters. */
  lemma ActivityClipIs(text: Str) returns (n: nat, i: nat, j: nat)
    requires Utf8(text)
    ensures n <= |text| && (n < |text| ==> text[n] == 0x0A) && (forall k :: 0 <= k < n ==> text[k] != 0x0A)
    ensures i <= j <= n && ActivityClip(text) == text[i..j] && AllBlank(text, 0, i)
    ensures i < j ==> !Blank(text[i])
    ensures (AllBlank(text, j, n) && (i < j ==> !Blank(text[j - 1])))
         || MAX_ACTIVITY_TEXT - 3 <= j - i <= MAX_ACTIVITY_TEXT
    ensures Utf8(ActivityClip(text))
  {
    hide Utf8;
    FirstLineIs(text);
    n := |FirstLine(text)|;
    var first := text[..n];
    var a, b := TrimIs(first);
    assert forall k :: 0 <= k < n ==> first[k] == text[k];
    LineIsValid(text, n, a, b);
    var line := first[a..b];
    var most := if |line| < MAX_ACTIVITY_TEXT then |line| else MAX_ACTIVITY_TEXT;
    var cut := Floor(line, most);
    FloorIsNear(line, most);
    BoundarySplits(line, cut);
    i, j := a, a + cut;
    assert text[i..j] == line[..cut];
    assert |line| <= MAX_ACTIVITY_TEXT ==> IsCharBoundary(line, most);
  }

  /** A part that begins and ends beside single-byte characters, or with the text, is valid. */
  lemma LineIsValid(text: Str, n: nat, i: nat, j: nat)
    requires Utf8(text) && i <= j <= n <= |text| && (n < |text| ==> text[n] == 0x0A)
    requires AllBlank(text[..n], 0, i) && AllBlank(text[..n], j, n)
    ensures Utf8(text[..n][i..j])
  {
    hide Utf8;
    BoundarySplits(text, n);
    var first := text[..n];
    if j < n { assert Blank(first[j]); }
    BoundarySplits(first, j);
    BoundaryAfter(first[..j], i);
    BoundarySplits(first[..j], i);
    assert first[..j][i..] == first[i..j];
  }

  lemma BoundaryAfter(text: Str, i: nat)
    requires Utf8(text) && i <= |text| && forall k :: 0 <= k < i ==> Blank(text[k])
    ensures IsCharBoundary(text, i)
    decreases i
  {
    if 0 < i < |text| {
      assert Blank(text[0]) && CharLen(text) == 1;
      BoundaryAfter(text[1..], i - 1);
      if i == 1 { CharShape(text[1..]); }
    }
  }
}
