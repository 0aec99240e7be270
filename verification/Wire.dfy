/** Messages to an attached client (crates/sheprd-chat-protocol/src/wire.rs), and what a
    client that applies them in order holds. */
module Wire {
  import opened Basics
  import opened Transcripts

  type ConnId = nat

  /** A position in one run's change stream. An epoch is a random UUID in the source. */
  datatype Cursor = Cursor(epoch: nat, seq_: nat) {
    function Next(): Cursor { Cursor(epoch, seq_ + 1) }
  }

  const VERSION: nat := 1

  datatype Rejection = NotReady | Unsupported
  datatype ServerMessage =
    | Welcome(agent: Str, pane: Option<Str>, version: nat)
    | Snapshot(cursor: Cursor, transcript: Transcript)
    | Changed(change: Change, cursor: Cursor)
    | Ack(id: nat, rejected: Option<Rejection>)

  type Stream = seq<ServerMessage>

  /** Which of a step's sends the bounded outboxes take: any may fail. */
  type Fate = (ConnId, nat) -> bool

  datatype View = Nothing | Holding(cursor: Cursor, transcript: Transcript) | Broken

  function See(view: View, message: ServerMessage): View {
    match message
    case Snapshot(cursor, transcript) => Holding(cursor, transcript)
    case Changed(change, cursor) =>
      if !view.Holding? then Broken
      else
        var r := Apply(view.transcript, change);
        if r.Fits? then Holding(cursor, r.t) else Broken
    case _ => view
  }

  /** What a client that held `start` holds after a stream. */
  function Replay(start: View, stream: Stream): View {
    if stream == [] then start else See(Replay(start, stream[..|stream| - 1]), stream[|stream| - 1])
  }

  lemma ReplaySnoc(start: View, stream: Stream, message: ServerMessage)
    ensures Replay(start, stream + [message]) == See(Replay(start, stream), message)
  {
    assert (stream + [message])[..|stream|] == stream;
  }

  /** The first `n` changes numbered on from a cursor. */
  function NumberedTo(at: Cursor, changes: seq<Change>, n: nat): Stream
    requires n <= |changes|
  {
    if n == 0 then []
    else NumberedTo(at, changes, n - 1) + [Changed(changes[n - 1], Cursor(at.epoch, at.seq_ + n))]
  }

  function Numbered(at: Cursor, changes: seq<Change>): Stream { NumberedTo(at, changes, |changes|) }

  lemma {:induction false} NumberedAt(at: Cursor, changes: seq<Change>, n: nat)
    requires n <= |changes|
    ensures |NumberedTo(at, changes, n)| == n
    ensures forall i :: 0 <= i < n ==>
      NumberedTo(at, changes, n)[i] == Changed(changes[i], Cursor(at.epoch, at.seq_ + i + 1))
  {
    if n > 0 { NumberedAt(at, changes, n - 1); }
  }

  lemma {:induction false} NumberedConcat(at: Cursor, a: seq<Change>, b: seq<Change>)
    ensures Numbered(at, a + b) == Numbered(at, a) + Numbered(Cursor(at.epoch, at.seq_ + |a|), b)
  {
    var all, rest := a + b, Cursor(at.epoch, at.seq_ + |a|);
    NumberedAt(at, all, |all|);
    NumberedAt(at, a, |a|);
    NumberedAt(rest, b, |b|);
  }

  // ----- a stream that never goes back

  /** In one epoch, `y` is further on than `x`, or the same. */
  ghost predicate Onward(x: View, y: View) {
    x.Holding? && y.Holding? && x.cursor.epoch == y.cursor.epoch ==> x.cursor.seq_ < y.cursor.seq_ || x == y
  }

  /** What a client that began with nothing holds after `k` messages. */
  function HeldAt(stream: Stream, k: nat): View
    requires k <= |stream|
  {
    Replay(Nothing, stream[..k])
  }

  /** An epoch that was left is not come back to. */
  ghost predicate Between(x: View, y: View, z: View) {
    x.Holding? && z.Holding? && x.cursor.epoch == z.cursor.epoch ==> y.Holding? && y.cursor.epoch == z.cursor.epoch
  }

  /** A client only moves on, so each cursor of the stream is held with one transcript. */
  ghost predicate Forward(stream: Stream) {
    && (forall a, b :: 0 <= a <= b <= |stream| ==> Onward(HeldAt(stream, a), HeldAt(stream, b)))
    && (forall a, b, c :: 0 <= a <= b <= c <= |stream| ==>
          Between(HeldAt(stream, a), HeldAt(stream, b), HeldAt(stream, c)))
  }

  /** The view is further on than any before. */
  ghost predicate Ahead(stream: Stream, view: View) {
    forall a :: 0 <= a <= |stream| ==> AheadOf(stream, a, view)
  }

  ghost predicate AheadOf(stream: Stream, a: nat, view: View)
    requires a <= |stream|
  {
    Onward(HeldAt(stream, a), view) && Between(HeldAt(stream, a), HeldAt(stream, |stream|), view)
  }

  lemma HeldSnoc(stream: Stream, message: ServerMessage)
    ensures forall k :: 0 <= k <= |stream| ==> HeldAt(stream + [message], k) == HeldAt(stream, k)
    ensures HeldAt(stream, |stream|) == Replay(Nothing, stream)
    ensures HeldAt(stream + [message], |stream| + 1) == See(Replay(Nothing, stream), message)
  {
    var longer := stream + [message];
    forall k | 0 <= k <= |stream| ensures HeldAt(longer, k) == HeldAt(stream, k) {
      assert longer[..k] == stream[..k];
    }
    assert stream[..|stream|] == stream && longer[..|stream| + 1] == longer;
    ReplaySnoc(Nothing, stream, message);
  }

  lemma ForwardNil()
    ensures Forward([])
  {
  }

  /** Only a snapshot could go back. */
  lemma AheadUnlessSnapshot(stream: Stream, message: ServerMessage)
    requires Forward(stream) && !message.Snapshot?
    requires message.Changed? ==>
      Replay(Nothing, stream).Holding? && message.cursor == Replay(Nothing, stream).cursor.Next()
    ensures Ahead(stream, See(Replay(Nothing, stream), message))
  {
    hide Apply;
    hide Replay;
    HeldSnoc(stream, message);
    var last := HeldAt(stream, |stream|);
    forall a | 0 <= a <= |stream| ensures AheadOf(stream, a, See(last, message)) {
      assert Onward(HeldAt(stream, a), last);
    }
  }

  lemma ForwardMore(stream: Stream, message: ServerMessage)
    requires Forward(stream) && Ahead(stream, See(Replay(Nothing, stream), message))
    ensures Forward(stream + [message])
  {
    hide See;
    hide Onward;
    hide Between;
    HeldSnoc(stream, message);
    hide HeldAt;
    var longer := stream + [message];
    var view := HeldAt(longer, |longer|);
    OnwardSelf(view);
    forall a, b | 0 <= a <= b <= |longer| ensures Onward(HeldAt(longer, a), HeldAt(longer, b)) {
      if b <= |stream| {
        assert Onward(HeldAt(stream, a), HeldAt(stream, b));
      } else if a <= |stream| {
        assert AheadOf(stream, a, view);
      }
    }
    forall a, b, c | 0 <= a <= b <= c <= |longer|
      ensures Between(HeldAt(longer, a), HeldAt(longer, b), HeldAt(longer, c))
    {
      if c <= |stream| {
        assert Between(HeldAt(stream, a), HeldAt(stream, b), HeldAt(stream, c));
      } else if b <= |stream| {
        assert AheadOf(stream, a, view) && Between(HeldAt(stream, a), HeldAt(stream, b), HeldAt(stream, |stream|));
        BetweenMore(HeldAt(stream, a), HeldAt(stream, b), HeldAt(stream, |stream|), view);
      } else {
        BetweenSelf(HeldAt(longer, a), view);
      }
    }
  }

  lemma OnwardSelf(x: View)
    ensures Onward(x, x)
  {}

  lemma BetweenSelf(x: View, y: View)
    ensures Between(x, y, y)
  {}

  lemma BetweenMore(x: View, y: View, z: View, next: View)
    requires Between(x, y, z) && Between(x, z, next)
    ensures Between(x, y, next)
  {}
}
