/** Messages over Bluetooth: framing, chunks and the helper that keeps each phone's apart
    (macos/sheprd-nearby/Framing.swift and main.swift). */
module Nearby {
  import opened Basics

  const MAX_MESSAGE := 4096

  // ----- framing

  /** A 2-byte big-endian length, then the message; a longer message traps in the source. */
  function Frame(message: Bytes): (r: Bytes)
    requires |message| < 0x1_0000
    ensures |r| == |message| + 2
  {
    [|message| / 0x100, |message| % 0x100] + message
  }

  function Concat(pieces: seq<Bytes>): Bytes {
    if pieces == [] then [] else Concat(pieces[..|pieces| - 1]) + pieces[|pieces| - 1]
  }

  function Max(a: nat, b: nat): nat { if a < b then b else a }

  method Chunks(message: Bytes, size: nat) returns (pieces: seq<Bytes>)
    requires |message| < 0x1_0000
    ensures pieces == ChunksFrom(Frame(message), Max(20, size), 0)
  {
    var framed := Frame(message);
    var step := Max(20, size);
    pieces := [];
    var at := 0;
    while at < |framed|
      invariant 0 <= at
      invariant pieces + ChunksFrom(framed, step, at) == ChunksFrom(framed, step, 0)
    {
      var end := if at + step < |framed| then at + step else |framed|;
      pieces := pieces + [framed[at..end]];
      at := at + step;
    }
  }

  function ChunksFrom(framed: Bytes, step: nat, at: nat): seq<Bytes>
    requires step > 0
    decreases |framed| - at
  {
    if at >= |framed| then []
    else [framed[at..if at + step < |framed| then at + step else |framed|]] + ChunksFrom(framed, step, at + step)
  }

  /** The message framed and cut into pieces, none empty. */
  ghost predicate Splits(pieces: seq<Bytes>, message: Bytes) {
    && |message| <= MAX_MESSAGE && Concat(pieces) == Frame(message)
    && forall i :: 0 <= i < |pieces| ==> pieces[i] != []
  }

  lemma ConcatCons(first: Bytes, rest: seq<Bytes>)
    ensures Concat([first] + rest) == first + Concat(rest)
    decreases |rest|
  {
    if rest == [] {
      assert Concat([first] + rest) == Concat([]) + first;
    } else {
      var n := |rest| - 1;
      ConcatCons(first, rest[..n]);
      assert ([first] + rest)[..|rest|] == [first] + rest[..n];
    }
  }

  lemma {:induction false} ChunksJoin(framed: Bytes, step: nat, at: nat)
    requires step > 0 && at <= |framed|
    ensures var pieces := ChunksFrom(framed, step, at);
      && Concat(pieces) == framed[at..]
      && forall i :: 0 <= i < |pieces| ==> 0 < |pieces[i]| <= step
    decreases |framed| - at
  {
    if at < |framed| {
      var end := if at + step < |framed| then at + step else |framed|;
      var rest := ChunksFrom(framed, step, at + step);
      if at + step < |framed| { ChunksJoin(framed, step, end); }
      assert Concat(rest) == framed[end..];
      ConcatCons(framed[at..end], rest);
      Rejoin(framed, at, end);
    }
  }

  lemma Rejoin(framed: Bytes, at: nat, end: nat)
    requires at <= end <= |framed|
    ensures framed[at..end] + framed[end..] == framed[at..]
  {}

  /** What `chunks` cuts is a split, each piece as long as the link takes. */
  lemma ChunksSplit(message: Bytes, size: nat)
    requires |message| <= MAX_MESSAGE
    ensures var pieces := ChunksFrom(Frame(message), Max(20, size), 0);
      Splits(pieces, message) && forall i :: 0 <= i < |pieces| ==> |pieces[i]| <= Max(20, size)
  {
    ChunksJoin(Frame(message), Max(20, size), 0);
  }

  // ----- reassembly

  datatype Outcome = Partial | Complete(message: Bytes) | Invalid

  function Judge(buffer: Bytes): Outcome {
    if |buffer| < 2 then Partial
    else
      var length := buffer[0] as int * 0x100 + buffer[1] as int;
      if length > MAX_MESSAGE || |buffer| > length + 2 then Invalid
      else if |buffer| == length + 2 then Complete(buffer[2..])
      else Partial
  }

  class Reassembly {
    var buffer: Bytes

    constructor ()
      ensures buffer == []
    {
      buffer := [];
    }

    method Add(chunk: Bytes) returns (r: Outcome)
      modifies this
      ensures buffer == old(buffer) + chunk && r == Judge(buffer)
    {
      buffer := buffer + chunk;
      if |buffer| < 2 { return Partial; }
      var length := buffer[0] as int * 0x100 + buffer[1] as int;
      if length > MAX_MESSAGE || |buffer| > length + 2 { return Invalid; }
      r := if |buffer| == length + 2 then Complete(buffer[2..]) else Partial;
    }
  }

  /** A frame is partial until its last byte, then complete with its message. */
  lemma PrefixIsPartial(message: Bytes, n: nat)
    requires |message| <= MAX_MESSAGE && n <= |message| + 2
    ensures Judge(Frame(message)[..n]) == if n < |message| + 2 then Partial else Complete(message)
  {
    var framed := Frame(message);
    var buffer := framed[..n];
    if n >= 2 { assert buffer[0] == framed[0] && buffer[1] == framed[1]; }
    if n == |framed| { assert buffer[2..] == message; }
  }

  /** A buffer is complete exactly when it is a frame, invalid exactly when it announces too long a
      message or goes past its end, and partial otherwise. */
  lemma JudgeExactly(buffer: Bytes, message: Bytes)
    ensures Judge(buffer) == Complete(message) <==> |message| <= MAX_MESSAGE && buffer == Frame(message)
    ensures Judge(buffer).Invalid? <==>
      && |buffer| >= 2
      && var announced := buffer[0] as int * 0x100 + buffer[1] as int;
      announced > MAX_MESSAGE || |buffer| > announced + 2
  {
    if |message| <= MAX_MESSAGE && |buffer| == |message| + 2 {
      var framed := Frame(message);
      assert framed[2..] == message && framed[0] as int * 0x100 + framed[1] as int == |message|;
      assert buffer == buffer[..2] + buffer[2..] && framed == framed[..2] + framed[2..];
    }
  }

  /** One sender on one characteristic: what is not yet a message, and the messages. */
  datatype Heard = Heard(buffer: Bytes, messages: seq<Bytes>)
  datatype Item = Value(bytes: Bytes) | Reset

  function Hear(h: Heard, item: Item): Heard {
    if item.Reset? then h.(buffer := [])
    else
      match Judge(h.buffer + item.bytes)
      case Partial => h.(buffer := h.buffer + item.bytes)
      case Complete(message) => Heard([], h.messages + [message])
      case Invalid => h.(buffer := [])
  }

  function HearAll(h: Heard, items: seq<Item>): Heard {
    if items == [] then h else Hear(HearAll(h, items[..|items| - 1]), items[|items| - 1])
  }

  lemma {:induction false} HearConcat(h: Heard, a: seq<Item>, b: seq<Item>)
    ensures HearAll(h, a + b) == HearAll(HearAll(h, a), b)
  {
    hide Hear;
    if b == [] {
      assert a + b == a;
    } else {
      var n := |b| - 1;
      HearConcat(h, a, b[..n]);
      assert (a + b)[..|a| + n] == a + b[..n];
    }
  }

  function Values(pieces: seq<Bytes>): (r: seq<Item>)
    ensures |r| == |pieces| && forall i :: 0 <= i < |r| ==> r[i] == Value(pieces[i])
  {
    seq(|pieces|, i requires 0 <= i < |pieces| => Value(pieces[i]))
  }

  lemma {:induction false} ConcatShorter(pieces: seq<Bytes>, n: nat)
    requires n <= |pieces|
    ensures |Concat(pieces[..n])| <= |Concat(pieces)| && Concat(pieces)[..|Concat(pieces[..n])|] == Concat(pieces[..n])
    decreases |pieces|
  {
    if n == |pieces| {
      assert pieces[..n] == pieces;
    } else {
      var m := |pieces| - 1;
      ConcatShorter(pieces[..m], n);
      assert pieces[..m][..n] == pieces[..n];
    }
  }

  lemma {:induction false} HearPart(h: Heard, pieces: seq<Bytes>, message: Bytes, n: nat)
    requires h.buffer == [] && Splits(pieces, message) && n < |pieces|
    ensures HearAll(h, Values(pieces[..n])) == h.(buffer := Concat(pieces[..n]))
    ensures |Concat(pieces[..n])| < |message| + 2
    decreases n
  {
    hide Judge;
    var framed := Frame(message);
    ConcatShorter(pieces, n + 1);
    assert pieces[..n + 1][..n] == pieces[..n];
    assert |Concat(pieces[..n])| < |Concat(pieces[..n + 1])| <= |framed|;
    if n > 0 {
      HearPart(h, pieces, message, n - 1);
      ConcatShorter(pieces, n);
      assert pieces[..n][..n - 1] == pieces[..n - 1];
      PrefixIsPartial(message, |Concat(pieces[..n])|);
      assert Values(pieces[..n])[..n - 1] == Values(pieces[..n - 1]);
    }
  }

  /** However a frame is split, its last piece and no other completes the message. */
  lemma SplitIsHeard(h: Heard, pieces: seq<Bytes>, message: Bytes)
    requires h.buffer == [] && Splits(pieces, message)
    ensures HearAll(h, Values(pieces)) == Heard([], h.messages + [message])
    ensures forall n :: 0 <= n < |pieces| ==> HearAll(h, Values(pieces[..n])).messages == h.messages
  {
    hide Judge;
    assert pieces != [];
    var n := |pieces| - 1;
    HearPart(h, pieces, message, n);
    assert Values(pieces)[..n] == Values(pieces[..n]);
    PrefixIsPartial(message, |message| + 2);
    assert Frame(message)[..|message| + 2] == Frame(message);
    forall k | 0 <= k < |pieces| ensures HearAll(h, Values(pieces[..k])).messages == h.messages {
      HearPart(h, pieces, message, k);
    }
  }

  function Flat(groups: seq<seq<Bytes>>): seq<Item> {
    if groups == [] then [] else Flat(groups[..|groups| - 1]) + Values(groups[|groups| - 1])
  }

  /** The pieces of one message after another. */
  ghost predicate Carries(groups: seq<seq<Bytes>>, messages: seq<Bytes>) {
    |groups| == |messages| && forall i :: 0 <= i < |groups| ==> Splits(groups[i], messages[i])
  }

  /** Exactly the messages framed are heard, in order. */
  lemma {:induction false} FramesAreHeard(h: Heard, groups: seq<seq<Bytes>>, messages: seq<Bytes>)
    requires h.buffer == [] && Carries(groups, messages)
    ensures HearAll(h, Flat(groups)) == Heard([], h.messages + messages)
  {
    hide Splits;
    hide Hear;
    hide Values;
    if groups == [] {
      assert h.messages + messages == h.messages;
    } else {
      hide HearAll;
      var n := |groups| - 1;
      FramesAreHeard(h, groups[..n], messages[..n]);
      HearConcat(h, Flat(groups[..n]), Values(groups[n]));
      SplitIsHeard(Heard([], h.messages + messages[..n]), groups[n], messages[n]);
      assert messages[..n] + [messages[n]] == messages;
      assert h.messages + messages[..n] + [messages[n]] == h.messages + (messages[..n] + [messages[n]]);
    }
  }
}
