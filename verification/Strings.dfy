/** Strings as Python's methods and patterns see them. */
module Strings {
  predicate Space(c: char) {
    var n := c as int;
    || 0x09 <= n <= 0x0D || 0x1C <= n <= 0x20 || n == 0x85 || n == 0xA0 || n == 0x1680
    || 0x2000 <= n <= 0x200A || n == 0x2028 || n == 0x2029 || n == 0x202F || n == 0x205F || n == 0x3000
  }

  function LStrip(s: string): string {
    if s != [] && Space(s[0]) then LStrip(s[1..]) else s
  }

  function RStrip(s: string): string {
    if s != [] && Space(s[|s| - 1]) then RStrip(s[..|s| - 1]) else s
  }

  function Strip(s: string): string { RStrip(LStrip(s)) }

  lemma {:induction false} LStripShorter(s: string)
    ensures |LStrip(s)| <= |s|
  {
    if s != [] && Space(s[0]) { LStripShorter(s[1..]); }
  }

  predicate StartsWith(s: string, prefix: string) { |prefix| <= |s| && s[..|prefix|] == prefix }

  predicate Contains(s: string, part: string) {
    exists i :: 0 <= i <= |s| && StartsWith(s[i..], part)
  }

  function FindClose(s: string, from: nat): (r: nat)
    requires from <= |s|
    ensures from <= r <= |s|
    decreases |s| - from
  {
    if from == |s| || s[from] == ')' then from else FindClose(s, from + 1)
  }

  lemma {:induction false} FindCloseIs(s: string, from: nat, close: nat)
    requires from <= close < |s| && s[close] == ')' && forall i :: from <= i < close ==> s[i] != ')'
    ensures FindClose(s, from) == close
    decreases close - from
  {
    if from < close { FindCloseIs(s, from + 1, close); }
  }

  lemma {:induction false} FindCloseFirst(s: string, from: nat)
    requires from <= |s|
    ensures var close := FindClose(s, from);
      (close < |s| ==> s[close] == ')') && forall i :: from <= i < close ==> s[i] != ')'
    decreases |s| - from
  {
    if from < |s| && s[from] != ')' { FindCloseFirst(s, from + 1); }
  }

  lemma {:induction false} LStripGap(gap: string, rest: string)
    requires (forall c :: c in gap ==> Space(c)) && (rest != "" ==> !Space(rest[0]))
    ensures LStrip(gap + rest) == rest
  {
    if gap == "" {
      assert gap + rest == rest;
    } else {
      LStripGap(gap[1..], rest);
      assert (gap + rest)[1..] == gap[1..] + rest;
    }
  }

  ghost predicate AllSpace(s: string) { forall i :: 0 <= i < |s| ==> Space(s[i]) }

  lemma {:induction false} LStripIs(s: string)
    ensures var n := |s| - |LStrip(s)|;
      n >= 0 && LStrip(s) == s[n..] && AllSpace(s[..n]) && (LStrip(s) != "" ==> !Space(LStrip(s)[0]))
  {
    if s != [] && Space(s[0]) {
      LStripIs(s[1..]);
      var n := |s| - |LStrip(s)|;
      assert s[..n] == [s[0]] + s[1..][..n - 1];
      assert s[1..][n - 1..] == s[n..];
    } else {
      assert s[0..] == s && s[..0] == "";
    }
  }

  lemma {:induction false} RStripIs(s: string)
    ensures var n := |RStrip(s)|;
      n <= |s| && RStrip(s) == s[..n] && AllSpace(s[n..]) && (n > 0 ==> !Space(s[n - 1]))
  {
    if s != [] && Space(s[|s| - 1]) {
      var m := |s| - 1;
      RStripIs(s[..m]);
      var n := |RStrip(s)|;
      assert s[n..] == s[..m][n..] + [s[m]];
      assert s[..m][..n] == s[..n];
    } else {
      assert s[..|s|] == s && s[|s|..] == "";
    }
  }

  /** Stripping takes the space around a text, all of it and nothing else. */
  lemma StripIs(s: string) returns (before: string, after: string)
    ensures s == before + Strip(s) + after && AllSpace(before) && AllSpace(after)
    ensures Strip(s) != "" ==> !Space(Strip(s)[0]) && !Space(Strip(s)[|Strip(s)| - 1])
  {
    LStripIs(s);
    var rest := LStrip(s);
    var n := |s| - |rest|;
    RStripIs(rest);
    var m := |RStrip(rest)|;
    hide LStrip;
    hide RStrip;
    before, after := s[..n], rest[m..];
    ThreeParts(s, n, m);
    EndsStay(rest, m);
    hide AllSpace;
    hide Space;
  }

  lemma ThreeParts(s: string, n: nat, m: nat)
    requires n + m <= |s|
    ensures s == s[..n] + s[n..][..m] + s[n..][m..]
  {}

  lemma EndsStay(s: string, m: nat)
    requires m <= |s|
    ensures m > 0 ==> s[..m] != "" && s[..m][0] == s[0] && s[..m][|s[..m]| - 1] == s[m - 1]
  {}
}
