/** An ECDSA signature from DER to the form a token carries (ios/tools/app_store_connect.py). */
module Signature {
  import opened Basics

  datatype Error = NotSignature | TooLong | OutOfRange

  // ----- numbers

  /** The number big-endian bytes spell. */
  function Value(s: Bytes): nat {
    if s == [] then 0 else 0x100 * Value(s[..|s| - 1]) + s[|s| - 1]
  }

  function Power(k: nat): nat { if k == 0 then 1 else 0x100 * Power(k - 1) }

  /** The last `k` bytes of `n`, big-endian. */
  function Fixed(n: nat, k: nat): (r: Bytes)
    ensures |r| == k
  {
    if k == 0 then [] else Fixed(n / 0x100, k - 1) + [n % 0x100]
  }

  /** The bytes of `n` without leading zeros. */
  function Minimal(n: nat): (r: Bytes)
    ensures r != [] ==> r[0] != 0
    ensures r == [] <==> n == 0
  {
    if n == 0 then [] else Minimal(n / 0x100) + [n % 0x100]
  }

  function Zeros(k: nat): (r: Bytes)
    ensures |r| == k && forall i :: 0 <= i < k ==> r[i] == 0
  {
    seq(k, _ => 0)
  }

  lemma {:induction false} MinimalShort(n: nat, k: nat)
    requires n < Power(k)
    ensures |Minimal(n)| <= k && Zeros(k - |Minimal(n)|) + Minimal(n) == Fixed(n, k)
  {
    if k == 0 {
      assert Minimal(n) == [] && Fixed(n, k) == [];
    } else if n == 0 {
      MinimalShort(0, k - 1);
      assert Zeros(k - 1) + [] == Zeros(k - 1) && Fixed(0, k) == Zeros(k - 1) + [0] && Zeros(k) == Zeros(k - 1) + [0];
    } else {
      MinimalShort(n / 0x100, k - 1);
      var m := Minimal(n / 0x100);
      assert Zeros(k - 1 - |m|) + (m + [n % 0x100]) == Zeros(k - 1 - |m|) + m + [n % 0x100];
    }
  }

  // ----- DER, as section 8.3 of X.690 writes an integer and section 2.2.3 of RFC 3279 a signature

  /** Two's complement in as few bytes as a number that is not negative takes. */
  function Content(n: nat): Bytes {
    var m := Minimal(n);
    if m == [] || m[0] >= 0x80 then [0] + m else m
  }

  function Integer(n: nat): Bytes
    requires |Content(n)| < 0x80
  {
    [0x02, |Content(n)|] + Content(n)
  }

  function Der(r: nat, s: nat): Bytes
    requires |Content(r)| + |Content(s)| + 4 < 0x80
  {
    [0x30, |Content(r)| + |Content(s)| + 4] + Integer(r) + Integer(s)
  }

  // ----- `raw_signature`

  function LStrip(s: Bytes): Bytes { if s != [] && s[0] == 0 then LStrip(s[1..]) else s }

  function Slice(s: Bytes, from: nat, to: nat): Bytes
    requires from <= to
  {
    if to <= |s| then s[from..to] else if from <= |s| then s[from..] else []
  }

  /** The integer at `index` as 32 bytes, and where the next one is. */
  function Part(der: Bytes, index: nat): Result<(Bytes, nat), Error> {
    if index >= |der| then Err(OutOfRange)
    else if der[index] != 0x02 then Err(NotSignature)
    else if index + 1 >= |der| then Err(OutOfRange)
    else
      var length := der[index + 1];
      var value := LStrip(Slice(der, index + 2, index + 2 + length));
      if |value| > 32 then Err(TooLong) else Ok((Zeros(32 - |value|) + value, index + 2 + length))
  }

  function Raw(der: Bytes): Result<Bytes, Error> {
    if |der| < 8 || der[0] != 0x30 then Err(NotSignature)
    else
      var first := Part(der, if der[1] < 0x80 then 2 else 2 + der[1] % 0x80);
      if first.Err? then Err(first.error)
      else
        var second := Part(der, first.value.1);
        if second.Err? then Err(second.error) else Ok(first.value.0 + second.value.0)
  }

  method RawSignature(der: Bytes) returns (r: Result<Bytes, Error>)
    ensures r == Raw(der)
  {
    if |der| < 8 || der[0] != 0x30 { return Err(NotSignature); }
    hide Part;
    var index: nat := if der[1] < 0x80 then 2 else 2 + der[1] % 0x80;
    var parts: seq<Bytes> := [];
    ghost var start := index;
    for k := 0 to 2
      invariant |parts| == k
      invariant k == 0 ==> index == start
      invariant k >= 1 ==> Part(der, start).Ok? && Part(der, start).value.0 == parts[0]
      invariant k == 1 ==> Part(der, start).value.1 == index
      invariant k == 2 ==>
        Part(der, Part(der, start).value.1).Ok? && Part(der, Part(der, start).value.1).value.0 == parts[1]
    {
      var part := ReadPart(der, index);
      if part.Err? { return Err(part.error); }
      parts := parts + [part.value.0];
      index := part.value.1;
    }
    r := Ok(parts[0] + parts[1]);
  }

  method ReadPart(der: Bytes, index: nat) returns (r: Result<(Bytes, nat), Error>)
    ensures r == Part(der, index)
  {
    if index >= |der| { return Err(OutOfRange); }
    if der[index] != 0x02 { return Err(NotSignature); }
    if index + 1 >= |der| { return Err(OutOfRange); }
    var length := der[index + 1];
    var value := LStrip(Slice(der, index + 2, index + 2 + length));
    if |value| > 32 { return Err(TooLong); }
    r := Ok((Zeros(32 - |value|) + value, index + 2 + length));
  }

  lemma StripContent(n: nat)
    ensures LStrip(Content(n)) == Minimal(n)
  {
    var m := Minimal(n);
    assert ([0] + m)[1..] == m;
  }

  lemma ContentShort(n: nat)
    requires n < Power(32)
    ensures 1 <= |Content(n)| <= 33
  {
    MinimalShort(n, 32);
  }

  lemma PartReads(before: Bytes, n: nat, after: Bytes)
    requires n < Power(32) && |Content(n)| < 0x80
    ensures Part(before + Integer(n) + after, |before|) == Ok((Fixed(n, 32), |before| + |Integer(n)|))
  {
    hide Content;
    var der := before + Integer(n) + after;
    var c := Content(n);
    var i := |before|;
    assert der[i] == 0x02 && der[i + 1] == |c|;
    assert der[i + 2..i + 2 + |c|] == c;
    StripContent(n);
    MinimalShort(n, 32);
  }

  /** For all r and s below 2^256 the DER signature becomes r and then s, 32 bytes big-endian each,
      as section 3.4 of RFC 7518 has it. */
  lemma DerBecomesRaw(r: nat, s: nat)
    requires r < Power(32) && s < Power(32)
    ensures |Content(r)| + |Content(s)| + 4 < 0x80
    ensures Raw(Der(r, s)) == Ok(Fixed(r, 32) + Fixed(s, 32))
  {
    ContentShort(r);
    ContentShort(s);
    hide Content;
    hide Part;
    var der := Der(r, s);
    var head: Bytes := [0x30, |Content(r)| + |Content(s)| + 4];
    assert der == head + Integer(r) + Integer(s);
    PartReads(head, r, Integer(s));
    assert der == (head + Integer(r)) + Integer(s) + [];
    PartReads(head + Integer(r), s, []);
    assert der[0] == 0x30 && der[1] == head[1];
  }

  // ----- what is read is what was written

  lemma {:induction false} FixedValue(n: nat, k: nat)
    requires n < Power(k)
    ensures Value(Fixed(n, k)) == n
  {
    if k > 0 {
      FixedValue(n / 0x100, k - 1);
      var f := Fixed(n / 0x100, k - 1);
      assert (f + [n % 0x100])[..|f|] == f;
    }
  }

  /** So r and s read back from the raw signature. */
  lemma RawReadsBack(r: nat, s: nat)
    requires r < Power(32) && s < Power(32)
    ensures |Content(r)| + |Content(s)| + 4 < 0x80
    ensures var raw := Raw(Der(r, s));
      raw.Ok? && |raw.value| == 64 && Value(raw.value[..32]) == r && Value(raw.value[32..]) == s
  {
    DerBecomesRaw(r, s);
    FixedValue(r, 32);
    FixedValue(s, 32);
    var raw := Raw(Der(r, s)).value;
    assert raw[..32] == Fixed(r, 32) && raw[32..] == Fixed(s, 32);
  }

  lemma {:induction false} ZerosAddNothing(k: nat, s: Bytes)
    ensures Value(Zeros(k) + s) == Value(s)
  {
    if s != [] {
      ZerosAddNothing(k, s[..|s| - 1]);
      assert (Zeros(k) + s)[..k + |s| - 1] == Zeros(k) + s[..|s| - 1];
    } else if k > 0 {
      ZerosAddNothing(k - 1, []);
      assert (Zeros(k) + [])[..k - 1] == Zeros(k - 1) + [];
    }
  }

  lemma {:induction false} StripKeepsValue(s: Bytes)
    ensures Value(LStrip(s)) == Value(s)
  {
    if s != [] && s[0] == 0 {
      StripKeepsValue(s[1..]);
      ZerosAddNothing(1, s[1..]);
      assert s == Zeros(1) + s[1..];
    }
  }

  lemma PartKeepsNumber(der: Bytes, index: nat)
    requires Part(der, index).Ok?
    ensures var part := Part(der, index).value;
      && index + 1 < |der| && |part.0| == 32
      && Value(part.0) == Value(Slice(der, index + 2, part.1))
  {
    var content := Slice(der, index + 2, index + 2 + der[index + 1]);
    StripKeepsValue(content);
    ZerosAddNothing(32 - |LStrip(content)|, LStrip(content));
  }

  /** Where the first integer is. */
  function First(der: Bytes): nat
    requires |der| >= 2
  {
    if der[1] < 0x80 then 2 else 2 + der[1] % 0x80
  }

  /** Where the integer after the one at `index` is. */
  function After(der: Bytes, index: nat): nat
    requires index + 1 < |der|
  {
    index + 2 + der[index + 1]
  }

  /** Whatever DER is accepted, it has an integer and then another, and the raw form is 64 bytes
      whose halves spell their numbers. */
  lemma AcceptedKeepsNumbers(der: Bytes)
    requires Raw(der).Ok?
    ensures |der| >= 8 && der[0] == 0x30 && First(der) + 1 < |der|
    ensures var first := First(der);
      var second := After(der, first);
      var raw := Raw(der).value;
      && second + 1 < |der| && der[first] == 0x02 && der[second] == 0x02 && |raw| == 64
      && Value(raw[..32]) == Value(Slice(der, first + 2, second))
      && Value(raw[32..]) == Value(Slice(der, second + 2, After(der, second)))
  {
    hide Value;
    hide LStrip;
    var first := First(der);
    PartKeepsNumber(der, first);
    var second := After(der, first);
    PartKeepsNumber(der, second);
    var raw := Raw(der).value;
    assert raw[..32] == Part(der, first).value.0 && raw[32..] == Part(der, second).value.0;
  }
}
