/** The helper's callbacks: keyed reassembly of what phones write, and the queue of what they are
    sent (macos/sheprd-nearby/main.swift). */
module NearbyHelper {
  import opened Basics
  import opened Nearby

  type Central = nat
  datatype Key = Key(central: Central, presence: bool)
  datatype Request = Request(key: Key, value: Bytes)
  datatype Notice = Notice(key: Key, chunk: Bytes)
  datatype Output = FrameOut(key: Key, message: Bytes) | Disconnected(central: Central)

  /** `out` is all that was printed and `sent` all the transmit queue took. */
  datatype State = State(
    pairing: bool, presenceOn: bool, incoming: map<Key, Bytes>, centrals: set<Central>,
    pending: seq<Notice>, out: seq<Output>, sent: seq<Notice>)

  const START := State(false, false, map[], {}, [], [], [])

  /** `ready` is how many notifications the transmit queue takes before it is full. */
  datatype Event =
    | Write(requests: seq<Request>)
    | Unsubscribe(key: Key)
    | Pair(on: bool)
    | Presence(on: bool)
    | Send(key: Key, message: Bytes, size: nat, ready: nat)
    | Ready(ready: nat)

  predicate Allowed(s: State, r: Request) { if r.key.presence then s.presenceOn else s.pairing }

  function Buffer(incoming: map<Key, Bytes>, key: Key): Bytes { if key in incoming then incoming[key] else [] }

  function TakeOne(s: State, r: Request): State {
    var buffer := Buffer(s.incoming, r.key) + r.value;
    var known := s.(centrals := s.centrals + {r.key.central});
    match Judge(buffer)
    case Complete(message) => known.(incoming := s.incoming - {r.key}, out := s.out + [FrameOut(r.key, message)])
    case Partial => known.(incoming := s.incoming[r.key := buffer])
    case Invalid => known.(incoming := s.incoming - {r.key})
  }

  function TakeAll(s: State, requests: seq<Request>): State {
    if requests == [] then s else TakeOne(TakeAll(s, requests[..|requests| - 1]), requests[|requests| - 1])
  }

  function Flush(s: State, ready: nat): State {
    var n := if ready < |s.pending| then ready else |s.pending|;
    s.(pending := s.pending[n..], sent := s.sent + s.pending[..n])
  }

  function Others(pending: seq<Notice>, key: Key): seq<Notice> {
    if pending == [] then []
    else
      var n := |pending| - 1;
      Others(pending[..n], key) + if pending[n].key == key then [] else [pending[n]]
  }

  function Notices(key: Key, pieces: seq<Bytes>): seq<Notice> {
    if pieces == [] then [] else Notices(key, pieces[..|pieces| - 1]) + [Notice(key, pieces[|pieces| - 1])]
  }

  function On(s: State, e: Event): State {
    match e
    case Write(requests) => if forall r :: r in requests ==> Allowed(s, r) then TakeAll(s, requests) else s
    case Unsubscribe(key) =>
      s.(incoming := s.incoming - {key}, pending := Others(s.pending, key),
         out := s.out + if key.presence then [Disconnected(key.central)] else [])
    case Pair(on) => s.(pairing := on)
    case Presence(on) => s.(presenceOn := on)
    case Send(key, message, size, ready) =>
      if key.central !in s.centrals || |message| >= 0x1_0000 then s
      else Flush(s.(pending := s.pending + Notices(key, ChunksFrom(Frame(message), Max(20, size), 0))), ready)
    case Ready(ready) => Flush(s, ready)
  }

  function Run(s: State, events: seq<Event>): State {
    if events == [] then s else On(Run(s, events[..|events| - 1]), events[|events| - 1])
  }

  class Helper {
    var pairing: bool
    var presenceOn: bool
    var incoming: map<Key, Bytes>
    var centrals: set<Central>
    var pending: seq<Notice>
    var out: seq<Output>
    var sent: seq<Notice>

    function Now(): State
      reads this
    {
      State(pairing, presenceOn, incoming, centrals, pending, out, sent)
    }

    constructor ()
      ensures Now() == START
    {
      pairing, presenceOn, incoming, centrals, pending, out, sent := false, false, map[], {}, [], [], [];
    }

    method ReceiveWrite(requests: seq<Request>) returns (ok: bool)
      modifies this
      ensures Now() == On(old(Now()), Write(requests))
      ensures ok <==> forall r :: r in requests ==> Allowed(old(Now()), r)
    {
      hide Judge;
      ok := true;
      for i := 0 to |requests|
        invariant Now() == old(Now())
        invariant ok <==> forall r :: r in requests[..i] ==> Allowed(old(Now()), r)
      {
        assert requests[..i + 1] == requests[..i] + [requests[i]];
        if !(if requests[i].key.presence then presenceOn else pairing) {
          ok := false;
          assert requests[i] in requests[..i + 1];
        }
      }
      assert requests[..|requests|] == requests;
      if !ok { return; }
      for i := 0 to |requests|
        invariant Now() == TakeAll(old(Now()), requests[..i])
      {
        assert requests[..i + 1][..i] == requests[..i];
        TakeRequest(requests[i]);
      }
    }

    method TakeRequest(request: Request)
      modifies this
      ensures Now() == TakeOne(old(Now()), request)
    {
      hide Judge;
      var key := request.key;
      centrals := centrals + {key.central};
      var assembly := new Reassembly();
      if key in incoming { assembly.buffer := incoming[key]; }
      var outcome := assembly.Add(request.value);
      match outcome
      case Complete(message) =>
        incoming := incoming - {key};
        out := out + [FrameOut(key, message)];
      case Partial => incoming := incoming[key := assembly.buffer];
      case Invalid => incoming := incoming - {key};
    }

    method SendMessage(key: Key, message: Bytes, size: nat, ready: nat)
      requires |message| < 0x1_0000
      modifies this
      ensures Now() == On(old(Now()), Send(key, message, size, ready))
    {
      hide ChunksFrom;
      if key.central !in centrals { return; }
      var pieces := Chunks(message, size);
      Enqueue(key, pieces);
      FlushPending(ready);
    }

    method Enqueue(key: Key, pieces: seq<Bytes>)
      modifies this`pending
      ensures pending == old(pending) + Notices(key, pieces)
    {
      ghost var before := pending;
      assert before + [] == before;
      for i := 0 to |pieces|
        invariant pending == before + Notices(key, pieces[..i])
      {
        assert pieces[..i + 1][..i] == pieces[..i];
        ghost var had := pending;
        pending := pending + [Notice(key, pieces[i])];
        assert before + (Notices(key, pieces[..i]) + [Notice(key, pieces[i])]) == had + [Notice(key, pieces[i])];
      }
      assert pieces[..|pieces|] == pieces;
    }

    /** Sends from the front of the queue until it is empty or the transmit queue refuses one. */
    method FlushPending(ready: nat)
      modifies this`pending, this`sent
      ensures Now() == Flush(old(Now()), ready)
    {
      ghost var queue := pending;
      var left := ready;
      while pending != [] && left > 0
        invariant 0 <= left <= ready && ready - left <= |queue|
        invariant pending == queue[ready - left..] && sent == old(sent) + queue[..ready - left]
        decreases left
      {
        assert queue[..ready - left + 1] == queue[..ready - left] + [pending[0]];
        sent := sent + [pending[0]];
        pending := pending[1..];
        left := left - 1;
      }
      assert ready - left == if ready < |queue| then ready else |queue|;
    }

    method ForgetSubscriber(key: Key)
      modifies this
      ensures Now() == On(old(Now()), Unsubscribe(key))
    {
      incoming := incoming - {key};
      pending := Others(pending, key);
      if key.presence { out := out + [Disconnected(key.central)]; }
      assert old(out) + [] == old(out);
    }
  }

  // ----- each phone on each characteristic is heard on its own

  function MessagesFrom(out: seq<Output>, key: Key): seq<Bytes> {
    if out == [] then []
    else
      var n := |out| - 1;
      MessagesFrom(out[..n], key) + if out[n].FrameOut? && out[n].key == key then [out[n].message] else []
  }

  function HeardOn(s: State, key: Key): Heard { Heard(Buffer(s.incoming, key), MessagesFrom(s.out, key)) }

  function ValuesOf(requests: seq<Request>, key: Key): seq<Item> {
    if requests == [] then []
    else
      var n := |requests| - 1;
      ValuesOf(requests[..n], key) + if requests[n].key == key then [Value(requests[n].value)] else []
  }

  /** What one event means to `key`: the values of a permitted batch, or starting over. */
  function ItemsOf(s: State, e: Event, key: Key): seq<Item> {
    if e.Write? && (forall r :: r in e.requests ==> Allowed(s, r)) then ValuesOf(e.requests, key)
    else if e.Unsubscribe? && e.key == key then [Reset]
    else []
  }

  function Items(s: State, events: seq<Event>, key: Key): seq<Item> {
    if events == [] then []
    else
      var before := events[..|events| - 1];
      Items(s, before, key) + ItemsOf(Run(s, before), events[|events| - 1], key)
  }

  lemma MessagesSnoc(out: seq<Output>, last: Output, key: Key)
    ensures MessagesFrom(out + [last], key)
         == MessagesFrom(out, key) + if last.FrameOut? && last.key == key then [last.message] else []
  {
    assert (out + [last])[..|out|] == out;
  }

  lemma OneIsHeard(s: State, r: Request, key: Key)
    ensures HeardOn(TakeOne(s, r), key)
         == if r.key == key then Hear(HeardOn(s, key), Value(r.value)) else HeardOn(s, key)
  {
    var outcome := Judge(Buffer(s.incoming, r.key) + r.value);
    if outcome.Complete? { MessagesSnoc(s.out, FrameOut(r.key, outcome.message), key); }
  }

  lemma {:induction false} BatchIsHeard(s: State, requests: seq<Request>, key: Key)
    ensures HeardOn(TakeAll(s, requests), key) == HearAll(HeardOn(s, key), ValuesOf(requests, key))
  {
    hide Hear;
    hide TakeOne;
    hide HeardOn;
    if requests != [] {
      var n := |requests| - 1;
      BatchIsHeard(s, requests[..n], key);
      OneIsHeard(TakeAll(s, requests[..n]), requests[n], key);
      var last := if requests[n].key == key then [Value(requests[n].value)] else [];
      HearConcat(HeardOn(s, key), ValuesOf(requests[..n], key), last);
      HearOne(HearAll(HeardOn(s, key), ValuesOf(requests[..n], key)), Value(requests[n].value));
    }
  }

  lemma HearOne(h: Heard, item: Item)
    ensures HearAll(h, [item]) == Hear(h, item) && HearAll(h, []) == h
  {
    hide Hear;
    assert [item][..0] == [];
  }

  lemma EventIsHeard(s: State, e: Event, key: Key)
    ensures HeardOn(On(s, e), key) == HearAll(HeardOn(s, key), ItemsOf(s, e, key))
  {
    hide Judge;
    hide TakeAll;
    hide ChunksFrom;
    hide HearAll;
    hide MessagesFrom;
    hide Others;
    hide Notices;
    hide ValuesOf;
    HearOne(HeardOn(s, key), Reset);
    match e
    case Write(requests) => BatchIsHeard(s, requests, key);
    case Unsubscribe(other) =>
      if other.presence { MessagesSnoc(s.out, Disconnected(other.central), key); }
      assert s.out + [] == s.out;
    case _ =>
  }

  /** Over every run, whoever else writes, a phone's frames on a characteristic are what its own
      permitted writes make there. */
  lemma {:induction false} RunIsHeard(s: State, events: seq<Event>, key: Key)
    ensures HeardOn(Run(s, events), key) == HearAll(HeardOn(s, key), Items(s, events, key))
  {
    hide On;
    hide HeardOn;
    hide ItemsOf;
    hide Hear;
    if events != [] {
      var n := |events| - 1;
      RunIsHeard(s, events[..n], key);
      var mid := Run(s, events[..n]);
      EventIsHeard(mid, events[n], key);
      HearConcat(HeardOn(s, key), Items(s, events[..n], key), ItemsOf(mid, events[n], key));
    }
  }

  /** So for every interleaving, the frames printed for a phone on a characteristic are exactly the
      messages it framed there, in order. */
  lemma FramesAreMessages(events: seq<Event>, key: Key, groups: seq<seq<Bytes>>, messages: seq<Bytes>)
    requires Items(START, events, key) == Flat(groups) && Carries(groups, messages)
    ensures MessagesFrom(Run(START, events).out, key) == messages
  {
    RunIsHeard(START, events, key);
    FramesAreHeard(Heard([], []), groups, messages);
    assert [] + messages == messages;
  }

  /** One request that is not permitted refuses the whole batch. */
  lemma RefusedChangesNothing(s: State, requests: seq<Request>, r: Request)
    requires r in requests && !Allowed(s, r)
    ensures On(s, Write(requests)) == s
  {}

  // ----- what a phone is sent

  function ChunksFor(queue: seq<Notice>, key: Key): seq<Item> {
    if queue == [] then []
    else
      var n := |queue| - 1;
      ChunksFor(queue[..n], key) + if queue[n].key == key then [Value(queue[n].chunk)] else []
  }

  /** All the chunks ever queued for `key`, in order: those that left, then those that wait. */
  function Queued(s: State, key: Key): seq<Item> { ChunksFor(s.sent + s.pending, key) }

  /** The chunks of the message an event sends to `key`, if it does. */
  function PiecesOf(s: State, e: Event, key: Key): seq<seq<Bytes>> {
    if e.Send? && e.key == key && key.central in s.centrals && |e.message| < 0x1_0000
    then [ChunksFrom(Frame(e.message), Max(20, e.size), 0)] else []
  }

  function MessagesOf(s: State, e: Event, key: Key): seq<Bytes> {
    if PiecesOf(s, e, key) == [] then [] else [e.message]
  }

  function Pieces(s: State, events: seq<Event>, key: Key): seq<seq<Bytes>> {
    if events == [] then []
    else
      var before := events[..|events| - 1];
      Pieces(s, before, key) + PiecesOf(Run(s, before), events[|events| - 1], key)
  }

  /** The messages a run sends to `key`. */
  function SentTo(s: State, events: seq<Event>, key: Key): seq<Bytes> {
    if events == [] then []
    else
      var before := events[..|events| - 1];
      SentTo(s, before, key) + MessagesOf(Run(s, before), events[|events| - 1], key)
  }

  lemma {:induction false} ChunksForConcat(a: seq<Notice>, b: seq<Notice>, key: Key)
    ensures ChunksFor(a + b, key) == ChunksFor(a, key) + ChunksFor(b, key)
  {
    if b == [] {
      assert a + b == a;
    } else {
      var n := |b| - 1;
      ChunksForConcat(a, b[..n], key);
      assert (a + b)[..|a| + n] == a + b[..n];
    }
  }

  lemma OneChunk(notice: Notice, key: Key)
    ensures ChunksFor([notice], key) == if notice.key == key then [Value(notice.chunk)] else []
  {
    assert [notice][..0] == [];
  }

  lemma {:induction false} OthersKept(pending: seq<Notice>, gone: Key, key: Key)
    requires gone != key
    ensures ChunksFor(Others(pending, gone), key) == ChunksFor(pending, key)
  {
    if pending != [] {
      var n := |pending| - 1;
      OthersKept(pending[..n], gone, key);
      if pending[n].key != gone { ChunksForConcat(Others(pending[..n], gone), [pending[n]], key); }
      assert Others(pending[..n], gone) + [] == Others(pending[..n], gone);
      OneChunk(pending[n], key);
    }
  }

  lemma ValuesLast(pieces: seq<Bytes>)
    requires pieces != []
    ensures var n := |pieces| - 1; Values(pieces) == Values(pieces[..n]) + [Value(pieces[n])]
  {}

  lemma {:induction false} NoticesFor(to: Key, pieces: seq<Bytes>, key: Key)
    ensures ChunksFor(Notices(to, pieces), key) == if to == key then Values(pieces) else []
  {
    if pieces == [] {
      assert Values(pieces) == [];
    } else {
      hide ChunksFor;
      hide Values;
      var n := |pieces| - 1;
      NoticesFor(to, pieces[..n], key);
      ChunksForConcat(Notices(to, pieces[..n]), [Notice(to, pieces[n])], key);
      OneChunk(Notice(to, pieces[n]), key);
      ValuesLast(pieces);
    }
  }

  /** Flushing moves the front of the queue and loses nothing. */
  lemma FlushKeeps(s: State, ready: nat)
    ensures var t := Flush(s, ready); t.sent + t.pending == s.sent + s.pending
  {
    var n := if ready < |s.pending| then ready else |s.pending|;
    assert s.pending[..n] + s.pending[n..] == s.pending;
  }

  lemma {:induction false} TakeAllQueuesNothing(s: State, requests: seq<Request>)
    ensures var t := TakeAll(s, requests); t.sent == s.sent && t.pending == s.pending
  {
    hide Judge;
    if requests != [] { TakeAllQueuesNothing(s, requests[..|requests| - 1]); }
  }

  lemma FlatOne(pieces: seq<Bytes>)
    ensures Flat([pieces]) == Values(pieces) && Flat([]) == []
  {
    assert [pieces][..0] == [];
  }

  lemma EventQueues(s: State, e: Event, key: Key)
    requires e != Unsubscribe(key)
    ensures Queued(On(s, e), key) == Queued(s, key) + Flat(PiecesOf(s, e, key))
  {
    hide ChunksFrom;
    hide Flush;
    hide TakeAll;
    hide Flat;
    hide ChunksFor;
    FlatOne([]);
    match e
    case Write(requests) =>
      TakeAllQueuesNothing(s, requests);
    case Unsubscribe(gone) =>
      OthersKept(s.pending, gone, key);
      ChunksForConcat(s.sent, s.pending, key);
      ChunksForConcat(s.sent, Others(s.pending, gone), key);
    case Send(to, message, size, ready) =>
      if to.central in s.centrals && |message| < 0x1_0000 {
        var pieces := ChunksFrom(Frame(message), Max(20, size), 0);
        var queued := Notices(to, pieces);
        var t := s.(pending := s.pending + queued);
        FlushKeeps(t, ready);
        assert s.sent + (s.pending + queued) == s.sent + s.pending + queued;
        ChunksForConcat(s.sent + s.pending, queued, key);
        NoticesFor(to, pieces, key);
        FlatOne(pieces);
      }
    case Ready(ready) => FlushKeeps(s, ready);
    case Pair(_) =>
    case Presence(_) =>
  }

  lemma ItemsAssoc(a: seq<Item>, b: seq<Item>, c: seq<Item>)
    ensures a + b + c == a + (b + c)
  {}

  lemma FlatSnoc(a: seq<seq<Bytes>>, last: seq<Bytes>)
    ensures Flat(a + [last]) == Flat(a) + Values(last)
  {
    assert (a + [last])[..|a|] == a;
  }

  lemma {:induction false} FlatConcat(a: seq<seq<Bytes>>, b: seq<seq<Bytes>>)
    ensures Flat(a + b) == Flat(a) + Flat(b)
  {
    hide Values;
    if b == [] {
      assert a + b == a && Flat(a) + [] == Flat(a);
    } else {
      hide Flat;
      var n := |b| - 1;
      FlatConcat(a, b[..n]);
      FlatSnoc(a + b[..n], b[n]);
      FlatSnoc(b[..n], b[n]);
      assert b[..n] + [b[n]] == b && a + b[..n] + [b[n]] == a + b;
      ItemsAssoc(Flat(a), Flat(b[..n]), Values(b[n]));
    }
  }

  /** Nothing queued for a subscribed phone is lost, repeated or reordered. */
  lemma {:induction false} RunQueues(s: State, events: seq<Event>, key: Key)
    requires Unsubscribe(key) !in events
    ensures Queued(Run(s, events), key) == Queued(s, key) + Flat(Pieces(s, events, key))
  {
    hide On;
    hide Queued;
    hide PiecesOf;
    hide Flat;
    if events == [] {
      FlatOne([]);
    } else {
      var n := |events| - 1;
      RunQueues(s, events[..n], key);
      var mid := Run(s, events[..n]);
      EventQueues(mid, events[n], key);
      FlatConcat(Pieces(s, events[..n], key), PiecesOf(mid, events[n], key));
    }
  }

  lemma PieceCarries(s: State, e: Event, key: Key)
    requires forall m :: m in MessagesOf(s, e, key) ==> |m| <= MAX_MESSAGE
    ensures Carries(PiecesOf(s, e, key), MessagesOf(s, e, key))
  {
    hide Splits;
    hide ChunksFrom;
    if PiecesOf(s, e, key) != [] {
      assert e.message in MessagesOf(s, e, key);
      ChunksSplit(e.message, e.size);
    }
  }

  lemma CarriesConcat(a: seq<seq<Bytes>>, b: seq<seq<Bytes>>, x: seq<Bytes>, y: seq<Bytes>)
    requires Carries(a, x) && Carries(b, y)
    ensures Carries(a + b, x + y)
  {
    hide Splits;
  }

  lemma {:induction false} PiecesCarry(s: State, events: seq<Event>, key: Key)
    requires forall m :: m in SentTo(s, events, key) ==> |m| <= MAX_MESSAGE
    ensures Carries(Pieces(s, events, key), SentTo(s, events, key))
  {
    hide Splits;
    hide On;
    hide Run;
    hide PiecesOf;
    hide MessagesOf;
    if events != [] {
      hide Carries;
      var n := |events| - 1;
      var mid := Run(s, events[..n]);
      assert forall m :: m in SentTo(s, events[..n], key) ==> m in SentTo(s, events, key);
      assert forall m :: m in MessagesOf(mid, events[n], key) ==> m in SentTo(s, events, key);
      PiecesCarry(s, events[..n], key);
      PieceCarries(mid, events[n], key);
      CarriesConcat(Pieces(s, events[..n], key), PiecesOf(mid, events[n], key),
                    SentTo(s, events[..n], key), MessagesOf(mid, events[n], key));
    }
  }

  /** Over every run in which a phone stays subscribed, what reached it reads as a prefix of the
      messages sent to it, and as all of them once its queue is empty. */
  lemma SentIsHeard(events: seq<Event>, key: Key)
    requires Unsubscribe(key) !in events
    requires forall m :: m in SentTo(START, events, key) ==> |m| <= MAX_MESSAGE
    ensures var s := Run(START, events);
      var heard := HearAll(Heard([], []), ChunksFor(s.sent, key)).messages;
      && heard <= SentTo(START, events, key)
      && (ChunksFor(s.pending, key) == [] ==> heard == SentTo(START, events, key))
  {
    hide Run;
    hide HearAll;
    hide ChunksFor;
    hide Flat;
    hide Pieces;
    hide SentTo;
    hide Carries;
    var s := Run(START, events);
    RunQueues(START, events, key);
    NothingQueued(key);
    PiecesCarry(START, events, key);
    var groups, messages := Pieces(START, events, key), SentTo(START, events, key);
    FramesAreHeard(Heard([], []), groups, messages);
    assert [] + messages == messages && [] + Flat(groups) == Flat(groups);
    ChunksForConcat(s.sent, s.pending, key);
    var sent, left := ChunksFor(s.sent, key), ChunksFor(s.pending, key);
    HearConcat(Heard([], []), sent, left);
    HearGrows(HearAll(Heard([], []), sent), left);
    HearOne(HearAll(Heard([], []), sent), Reset);
  }

  lemma NothingQueued(key: Key)
    ensures Queued(START, key) == []
  {
    assert START.sent + START.pending == [];
  }

  lemma {:induction false} HearGrows(h: Heard, items: seq<Item>)
    ensures h.messages <= HearAll(h, items).messages
  {
    hide Judge;
    if items != [] { HearGrows(h, items[..|items| - 1]); }
  }

  // ----- what is sent, who is known and what is allowed

  /** Flushing stops only when nothing waits or the transmit queue is full. */
  lemma FlushSends(s: State, ready: nat)
    ensures var t := Flush(s, ready);
      && s.sent <= t.sent && |t.sent| - |s.sent| <= ready
      && (t.pending == [] || |t.sent| == |s.sent| + ready)
      && t == s.(pending := t.pending, sent := t.sent)
  {}

  /** Whenever the transmit queue is ready, and after each message, what waits is sent as far as it
      takes it. */
  lemma EventFlushes(s: State, e: Event)
    requires e.Ready? || (e.Send? && e.key.central in s.centrals && |e.message| < 0x1_0000)
    ensures var t := On(s, e); s.sent <= t.sent && (t.pending == [] || |t.sent| == |s.sent| + e.ready)
  {
    hide ChunksFrom;
    if e.Ready? {
      FlushSends(s, e.ready);
    } else {
      var pieces := ChunksFrom(Frame(e.message), Max(20, e.size), 0);
      FlushSends(s.(pending := s.pending + Notices(e.key, pieces)), e.ready);
    }
    hide Flush;
  }

  /** What was partial or waiting for a phone that leaves a characteristic is gone, and that it left is
      said exactly where presence is watched. */
  lemma LeavingForgets(s: State, key: Key)
    ensures var t := On(s, Unsubscribe(key));
      && key !in t.incoming && ChunksFor(t.pending, key) == [] && t.sent == s.sent
      && t.out == s.out + if key.presence then [Disconnected(key.central)] else []
  {
    NoneOfOthers(s.pending, key);
    assert s.out + [] == s.out;
  }

  lemma {:induction false} NoneOfOthers(pending: seq<Notice>, key: Key)
    ensures ChunksFor(Others(pending, key), key) == []
  {
    if pending != [] {
      var n := |pending| - 1;
      var before := Others(pending[..n], key);
      NoneOfOthers(pending[..n], key);
      ChunksForConcat(before, [pending[n]], key);
      OneChunk(pending[n], key);
      assert before + [] == before;
    }
  }

  /** The last word on a switch. */
  function LastPair(events: seq<Event>, start: bool): bool {
    if events == [] then start
    else
      var last := events[|events| - 1];
      if last.Pair? then last.on else LastPair(events[..|events| - 1], start)
  }

  function LastPresence(events: seq<Event>, start: bool): bool {
    if events == [] then start
    else
      var last := events[|events| - 1];
      if last.Presence? then last.on else LastPresence(events[..|events| - 1], start)
  }

  /** The batch at `k` was permitted when it came and has a request of `central`. */
  ghost predicate Wrote(s: State, events: seq<Event>, k: nat, central: Central) {
    && k < |events| && events[k].Write? && (exists r :: r in events[k].requests && r.key.central == central)
    && forall r :: r in events[k].requests ==>
         if r.key.presence then LastPresence(events[..k], s.presenceOn) else LastPair(events[..k], s.pairing)
  }

  lemma {:induction false} BatchKnows(s: State, requests: seq<Request>, central: Central)
    ensures var t := TakeAll(s, requests);
      && t.pairing == s.pairing && t.presenceOn == s.presenceOn
      && (central in t.centrals <==> central in s.centrals || exists r :: r in requests && r.key.central == central)
  {
    hide Judge;
    if requests != [] {
      var n := |requests| - 1;
      BatchKnows(s, requests[..n], central);
      assert requests == requests[..n] + [requests[n]];
    }
  }

  /** Over every run: pairing and presence are as last switched, and a phone is known, so that messages
      to it are sent, exactly when it once wrote in a permitted batch. */
  lemma {:induction false} RunRemembers(s: State, events: seq<Event>, central: Central)
    ensures var t := Run(s, events);
      && t.pairing == LastPair(events, s.pairing) && t.presenceOn == LastPresence(events, s.presenceOn)
      && (central in t.centrals <==> central in s.centrals || exists k: nat :: Wrote(s, events, k, central))
  {
    if events != [] {
      var n := |events| - 1;
      var before := Run(s, events[..n]);
      RunRemembers(s, events[..n], central);
      OnRemembers(before, events[n], central);
      hide On;
      forall k: nat ensures Wrote(s, events, k, central) <==>
        Wrote(s, events[..n], k, central) || (k == n && Wrote(s, events, n, central))
      {
        if k < n { assert events[..n][..k] == events[..k]; }
      }
      assert Wrote(s, events, n, central) <==>
        events[n].Write? && (forall r :: r in events[n].requests ==> Allowed(before, r))
        && exists r :: r in events[n].requests && r.key.central == central;
    }
  }

  lemma OnRemembers(s: State, e: Event, central: Central)
    ensures var t := On(s, e);
      && (t.pairing <==> if e.Pair? then e.on else s.pairing)
      && (t.presenceOn <==> if e.Presence? then e.on else s.presenceOn)
      && (central in t.centrals <==>
            central in s.centrals
            || (e.Write? && (forall r :: r in e.requests ==> Allowed(s, r))
                && exists r :: r in e.requests && r.key.central == central))
  {
    hide ChunksFrom;
    hide TakeAll;
    if e.Write? { BatchKnows(s, e.requests, central); }
  }
}
