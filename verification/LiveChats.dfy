/** The computer's end of a chat open on a phone: it follows the chat as a client
    (crates/sheprd-remote-control/src/hub/chat.rs, `receive`) and sends on what it gathers
    (src/native/live.rs, `Batch` and `split_at_pictures`). */
module LiveChats {
  import opened Basics
  import opened Transcripts
  import opened Wire
  import opened ChatStores
  import D = Diff
  import M = Mirrors

  // ----- the phone is a client

  /** Stands for having no cursor. */
  const NOWHERE: Cursor := Cursor(0, 0)

  function CursorOf(view: View): Option<Cursor> { if view.Holding? then Some(view.cursor) else None }

  function CursorOr(at: Option<Cursor>): Cursor { if at.None? then NOWHERE else at.value }

  /** What a client that is where the store is would hold; one without a transcript can use no change
      and waits for a snapshot like one that diverged. */
  function StoreView(s: Store): View {
    if s.diverged || s.transcript.None? then Broken else Holding(CursorOr(s.cursor), s.transcript.value)
  }

  function Changeds(items: seq<Item>): (r: Stream)
    ensures |r| == |items| && forall i :: 0 <= i < |r| ==> r[i] == Changed(items[i].change, items[i].cursor)
  {
    seq(|items|, i requires 0 <= i < |items| => Changed(items[i].change, items[i].cursor))
  }

  /** The server messages an event stands for. */
  function AsStream(event: Event): Stream {
    match event
    case ChatSnapshot(transcript, at, _) => [Snapshot(CursorOr(at), transcript)]
    case ChatChanges(changes) => Changeds(changes)
    case _ => []
  }

  function Streams(events: seq<Event>): Stream {
    if events == [] then [] else Streams(events[..|events| - 1]) + AsStream(events[|events| - 1])
  }

  lemma ReplayNothing(view: View)
    ensures Replay(view, []) == view
  {}

  lemma {:induction false} ReplayConcat(view: View, a: Stream, b: Stream)
    ensures Replay(view, a + b) == Replay(Replay(view, a), b)
  {
    hide See;
    if b == [] {
      assert a + b == a;
    } else {
      var n := |b| - 1;
      ReplayConcat(view, a, b[..n]);
      assert (a + b)[..|a| + n] == a + b[..n];
    }
  }

  lemma {:induction false} ChangesSeen(cursor: Cursor, t: Transcript, items: seq<Item>, k: nat)
    requires k <= |items|
    ensures Replay(Holding(cursor, t), Changeds(items)[..k])
         == if k > Fitting(t, items) then Broken
            else Holding(if k == 0 then cursor else items[k - 1].cursor, After(t, items, k))
  {
    hide Apply;
    if k > 0 {
      ChangesSeen(cursor, t, items, k - 1);
      var stream := Changeds(items);
      assert stream[..k] == stream[..k - 1] + [stream[k - 1]];
      ReplaySnoc(Holding(cursor, t), stream[..k - 1], stream[k - 1]);
      if k - 1 <= Fitting(t, items) { AfterStep(t, items, k - 1); }
    }
  }

  /** A resumption is of the store's own cursor. */
  ghost predicate Proper(s: Store, event: Event) { event.ChatResumed? ==> s.cursor == Some(event.cursor) }

  lemma EventIsSeen(s: Store, event: Event)
    requires Proper(s, event)
    ensures StoreView(OnEvent(s, event)) == Replay(StoreView(s), AsStream(event))
  {
    hide Apply;
    hide Replay;
    ReplayNothing(StoreView(s));
    match event
    case ChatSnapshot(transcript, at, _) =>
      ReplaySnoc(StoreView(s), [], Snapshot(CursorOr(at), transcript));
      assert [] + [Snapshot(CursorOr(at), transcript)] == [Snapshot(CursorOr(at), transcript)];
    case ChatChanges(changes) =>
      if s.diverged || s.transcript.None? {
        BrokenStays(Changeds(changes));
      } else {
        ChangesSeen(CursorOr(s.cursor), s.transcript.value, changes, |changes|);
        assert Changeds(changes)[..|changes|] == Changeds(changes);
      }
    case _ =>
  }

  lemma {:induction false} BrokenStays(stream: Stream)
    requires forall i :: 0 <= i < |stream| ==> stream[i].Changed?
    ensures Replay(Broken, stream) == Broken
  {
    if stream != [] { BrokenStays(stream[..|stream| - 1]); }
  }

  /** The store refines a client: over every run of events it may be sent, diverging or not, it
      holds what a client holds that replays the messages they stand for. */
  lemma {:induction false} StoreIsAClient(s: Store, events: seq<Event>)
    requires forall k :: 0 <= k < |events| ==> Proper(Run(s, events[..k]), events[k])
    ensures StoreView(Run(s, events)) == Replay(StoreView(s), Streams(events))
  {
    hide OnEvent;
    hide AsStream;
    hide StoreView;
    hide See;
    hide Proper;
    if events != [] {
      var n := |events| - 1;
      var before := events[..n];
      forall k | 0 <= k < |before| ensures Proper(Run(s, before[..k]), before[k]) {
        assert before[..k] == events[..k];
      }
      StoreIsAClient(s, before);
      EventIsSeen(Run(s, before), events[n]);
      ReplayConcat(StoreView(s), Streams(before), AsStream(events[n]));
    }
  }

  // ----- what is gathered between sends

  /** `Batch`, and the cursor of what the phone has or is about to be sent. */
  datatype Gathered = Gathered(
    reset: Option<(Transcript, Cursor)>, steps: seq<Item>, connection: bool, held: Option<Cursor>)

  predicate Had(held: Option<Cursor>, cursor: Cursor) {
    held.Some? && held.value.epoch == cursor.epoch && cursor.seq_ <= held.value.seq_
  }

  /** `Batch::take`, of what a message to the chat's client makes it publish. */
  function Take(g: Gathered, message: ServerMessage): Gathered {
    match message
    case Snapshot(cursor, transcript) =>
      g.(reset := Some((transcript, cursor)), steps := [], held := Some(cursor))
    case Changed(change, cursor) =>
      if Had(g.held, cursor) then g
      else g.(steps := g.steps + [Item(change, cursor)], held := Some(cursor))
    case Welcome(_, _, _) => g.(connection := true)
    case Ack(_, _) => g
  }

  function TakeAll(g: Gathered, stream: Stream): Gathered {
    if stream == [] then g else Take(TakeAll(g, stream[..|stream| - 1]), stream[|stream| - 1])
  }

  predicate IsPicture(item: Item) { item.change.Push? && item.change.entry.kind.Picture? }

  /** A new batch starts at each picture. */
  function SplitAtPictures(steps: seq<Item>): seq<seq<Item>> {
    if steps == [] then []
    else
      var batches, step := SplitAtPictures(steps[..|steps| - 1]), steps[|steps| - 1];
      var n := |batches| - 1;
      if batches == [] || IsPicture(step) then batches + [[step]] else batches[n := batches[n] + [step]]
  }

  method Split(steps: seq<Item>) returns (batches: seq<seq<Item>>)
    ensures batches == SplitAtPictures(steps)
  {
    batches := [];
    for i := 0 to |steps|
      invariant batches == SplitAtPictures(steps[..i])
    {
      assert steps[..i + 1][..i] == steps[..i];
      if batches != [] && !IsPicture(steps[i]) {
        batches := batches[|batches| - 1 := batches[|batches| - 1] + [steps[i]]];
      } else {
        batches := batches + [[steps[i]]];
      }
    }
    assert steps[..|steps|] == steps;
  }

  function Batches(groups: seq<seq<Item>>): (r: seq<Event>)
    ensures |r| == |groups| && forall i :: 0 <= i < |r| ==> r[i] == ChatChanges(groups[i])
  {
    seq(|groups|, i requires 0 <= i < |groups| => ChatChanges(groups[i]))
  }

  /** `Batch::messages`: a new snapshot, the changes after it, then the connection's state. */
  function Messages(g: Gathered, connected: bool): seq<Event> {
    (if g.reset.None? then [] else [ChatSnapshot(g.reset.value.0, Some(g.reset.value.1), connected)])
    + Batches(SplitAtPictures(g.steps))
    + (if g.connection then [ChatConnection(connected)] else [])
  }

  /** The server messages it stands for. */
  function Unsent(g: Gathered): Stream {
    (if g.reset.None? then [] else [Snapshot(g.reset.value.1, g.reset.value.0)]) + Changeds(g.steps)
  }

  class Batch {
    var reset: Option<(Transcript, Cursor)>
    var steps: seq<Item>
    var connection: bool

    constructor ()
      ensures reset == None && steps == [] && !connection
    {
      reset, steps, connection := None, [], false;
    }

    method TakeMessage(message: ServerMessage, had: Option<Cursor>) returns (held: Option<Cursor>)
      modifies this
      ensures Gathered(reset, steps, connection, held)
           == Take(Gathered(old(reset), old(steps), old(connection), had), message)
    {
      held := had;
      match message
      case Snapshot(cursor, transcript) =>
        steps := [];
        reset := Some((transcript, cursor));
        held := Some(cursor);
      case Changed(change, cursor) =>
        if !(held.Some? && held.value.epoch == cursor.epoch && cursor.seq_ <= held.value.seq_) {
          steps := steps + [Item(change, cursor)];
          held := Some(cursor);
        }
      case Welcome(_, _, _) => connection := true;
      case Ack(_, _) =>
    }
  }

  // Sending what was gathered is sending the messages it stands for.

  lemma ChangedsSnoc(items: seq<Item>, item: Item)
    ensures Changeds(items + [item]) == Changeds(items) + [Changed(item.change, item.cursor)]
  {}

  lemma StreamsSnoc(events: seq<Event>, event: Event)
    ensures Streams(events + [event]) == Streams(events) + AsStream(event)
  {
    assert (events + [event])[..|events|] == events;
  }

  lemma {:induction false} StreamsConcat(a: seq<Event>, b: seq<Event>)
    ensures Streams(a + b) == Streams(a) + Streams(b)
  {
    hide AsStream;
    if b == [] {
      assert a + b == a && Streams(a) + [] == Streams(a);
    } else {
      hide Streams;
      var n := |b| - 1;
      StreamsConcat(a, b[..n]);
      StreamsSnoc(a + b[..n], b[n]);
      StreamsSnoc(b[..n], b[n]);
      assert a + b == a + b[..n] + [b[n]] && b == b[..n] + [b[n]];
      ConcatAssoc(Streams(a), Streams(b[..n]), AsStream(b[n]));
    }
  }

  lemma GrowLast(groups: seq<seq<Item>>, step: Item)
    requires groups != []
    ensures var n := |groups| - 1;
      Streams(Batches(groups[n := groups[n] + [step]]))
        == Streams(Batches(groups)) + [Changed(step.change, step.cursor)]
  {
    hide Streams;
    var n := |groups| - 1;
    var before := Batches(groups[..n]);
    StreamsSnoc(before, ChatChanges(groups[n]));
    StreamsSnoc(before, ChatChanges(groups[n] + [step]));
    assert Batches(groups) == before + [ChatChanges(groups[n])];
    assert Batches(groups[n := groups[n] + [step]]) == before + [ChatChanges(groups[n] + [step])];
    ChangedsSnoc(groups[n], step);
  }

  /** Splitting at pictures loses, repeats and moves nothing. */
  lemma {:induction false} SplitIsSame(steps: seq<Item>)
    ensures Streams(Batches(SplitAtPictures(steps))) == Changeds(steps)
  {
    hide Streams;
    if steps == [] {
      NoStreams();
      assert Batches([]) == [];
    } else {
      var n := |steps| - 1;
      SplitIsSame(steps[..n]);
      var groups, step := SplitAtPictures(steps[..n]), steps[n];
      assert steps == steps[..n] + [step];
      ChangedsSnoc(steps[..n], step);
      if groups == [] || IsPicture(step) {
        assert Batches(groups + [[step]]) == Batches(groups) + [ChatChanges([step])];
        StreamsSnoc(Batches(groups), ChatChanges([step]));
      } else {
        GrowLast(groups, step);
      }
    }
  }

  /** A batch begins at each picture, and after the first nowhere else. */
  lemma {:induction false} SplitStartsAtPictures(steps: seq<Item>)
    ensures var batches := SplitAtPictures(steps);
      && (batches == [] <==> steps == [])
      && (forall g :: 0 <= g < |batches| ==> batches[g] != [] && (g > 0 ==> IsPicture(batches[g][0])))
      && forall g, i :: 0 <= g < |batches| && 0 < i < |batches[g]| ==> !IsPicture(batches[g][i])
  {
    hide IsPicture;
    if steps != [] { SplitStartsAtPictures(steps[..|steps| - 1]); }
  }

  /** The connection's state goes last, exactly when the chat's program came or went. */
  lemma MessagesTell(g: Gathered, connected: bool)
    ensures var events := Messages(g, connected);
      && ((exists e :: e in events && e.ChatConnection?) <==> g.connection)
      && (g.connection ==> events != [] && events[|events| - 1] == ChatConnection(connected))
  {
    var events := Messages(g, connected);
    if g.connection { assert events[|events| - 1] in events; }
  }

  lemma {:induction false} GatheringTells(g: Gathered, stream: Stream)
    ensures TakeAll(g, stream).connection <==> g.connection || exists m :: m in stream && m.Welcome?
  {
    if stream != [] {
      var n := |stream| - 1;
      GatheringTells(g, stream[..n]);
      assert stream == stream[..n] + [stream[n]];
    }
  }

  lemma NoStreams()
    ensures Streams([]) == []
  {}

  lemma OneStream(event: Event)
    ensures Streams([event]) == AsStream(event)
  {
    StreamsSnoc([], event);
    assert [] + [event] == [event] && [] + AsStream(event) == AsStream(event);
  }

  lemma MessagesSend(g: Gathered, connected: bool)
    ensures Streams(Messages(g, connected)) == Unsent(g)
  {
    hide Streams;
    hide SplitAtPictures;
    var first := if g.reset.None? then [] else [ChatSnapshot(g.reset.value.0, Some(g.reset.value.1), connected)];
    var middle := Batches(SplitAtPictures(g.steps));
    var last := if g.connection then [ChatConnection(connected)] else [];
    NoStreams();
    SplitIsSame(g.steps);
    StreamsConcat(first, middle);
    StreamsConcat(first + middle, last);
    if g.reset.Some? { OneStream(first[0]); }
    if g.connection { OneStream(last[0]); }
    assert Streams(first) + Changeds(g.steps) + [] == Streams(first) + Changeds(g.steps);
  }

  // ----- following a faithful stream

  ghost predicate SnapshotIn(stream: Stream, a: nat, b: nat)
    requires a <= b <= |stream|
  {
    exists x :: a <= x < b && stream[x].Snapshot?
  }

  /** In one epoch the cursor only grows. */
  lemma {:induction false} CursorGrows(stream: Stream, log: Log, a: nat, b: nat)
    requires M.Faithful(stream, log) && a <= b <= |stream| && !SnapshotIn(stream, a, b)
    requires Replay(Nothing, stream[..a]).Holding?
    ensures var x, y := Replay(Nothing, stream[..a]), Replay(Nothing, stream[..b]);
      y.Holding? && y.cursor.epoch == x.cursor.epoch && x.cursor.seq_ <= y.cursor.seq_
    decreases b
  {
    hide Apply;
    if a < b {
      CursorGrows(stream, log, a, b - 1);
      OneMore(stream, log, b - 1);
    }
  }

  /** One message of a faithful stream. */
  lemma OneMore(stream: Stream, log: Log, m: nat)
    requires M.Faithful(stream, log) && m < |stream|
    ensures var x, y := Replay(Nothing, stream[..m]), Replay(Nothing, stream[..m + 1]);
      && y == See(x, stream[m]) && !y.Broken?
      && (stream[m].Changed? ==> x.Holding? && y.Holding? && stream[m].cursor == x.cursor.Next() == y.cursor)
  {
    hide Apply;
    assert M.Usable(stream, m, log);
    assert stream[..m + 1] == stream[..m] + [stream[m]];
    ReplaySnoc(Nothing, stream[..m], stream[m]);
  }

  /** Change `x` follows the one before, the first `start`. */
  predicate ChainedAt(start: Cursor, items: seq<Item>, x: nat)
    requires x < |items|
  {
    items[x].cursor == if x == 0 then start.Next() else items[x - 1].cursor.Next()
  }

  ghost predicate Chained(start: Cursor, items: seq<Item>) {
    forall x :: 0 <= x < |items| ==> ChainedAt(start, items, x)
  }

  /** Where changes that start at `start` end. */
  function End(start: Cursor, items: seq<Item>): Cursor {
    if items == [] then start else items[|items| - 1].cursor
  }

  lemma ChainedSnoc(start: Cursor, items: seq<Item>, item: Item)
    requires Chained(start, items) && item.cursor == End(start, items).Next()
    ensures Chained(start, items + [item]) && End(start, items + [item]) == item.cursor
  {
    var longer := items + [item];
    forall x | 0 <= x < |longer| ensures ChainedAt(start, longer, x) {
      if x < |items| { assert ChainedAt(start, items, x); }
    }
  }

  /** Where the changes of a batch start from. */
  function From(base: View, g: Gathered): Cursor {
    if g.reset.Some? then g.reset.value.1 else if base.Holding? then base.cursor else NOWHERE
  }

  /** What is held after every message is what the log names. */
  ghost predicate Along(view: View, stream: Stream, log: Log) {
    forall x :: 0 <= x <= |stream| ==> M.Named(Replay(view, stream[..x]), log)
  }

  /** Sent on from `base`, what was gathered brings the phone where the stream is at `m`, each change
      following what it then holds. */
  ghost predicate Brings(stream: Stream, log: Log, base: View, m: nat, g: Gathered)
    requires m <= |stream|
  {
    var view := HeldAt(stream, m);
    && view.Holding? && g.held == Some(view.cursor) && Replay(base, Unsent(g)) == view
    && Chained(From(base, g), g.steps) && End(From(base, g), g.steps) == view.cursor
    && Along(base, Unsent(g), log)
  }

  lemma UnsentSnoc(g: Gathered, item: Item)
    ensures Unsent(g.(steps := g.steps + [item])) == Unsent(g) + [Changed(item.change, item.cursor)]
  {
    ChangedsSnoc(g.steps, item);
  }

  lemma UnsentIgnores(g: Gathered, held: Option<Cursor>)
    ensures Unsent(g.(held := held)) == Unsent(g)
  {}

  lemma AlongSnoc(view: View, stream: Stream, message: ServerMessage, log: Log)
    requires Along(view, stream, log) && M.Named(See(Replay(view, stream), message), log)
    ensures Along(view, stream + [message], log)
  {
    hide See;
    hide M.Named;
    var longer := stream + [message];
    ReplaySnoc(view, stream, message);
    forall x | 0 <= x <= |longer| ensures M.Named(Replay(view, longer[..x]), log) {
      if x <= |stream| {
        assert longer[..x] == stream[..x];
      } else {
        assert longer[..x] == longer;
      }
    }
  }

  lemma AlongNothing(view: View, log: Log)
    requires M.Named(view, log)
    ensures Along(view, [], log)
  {
    ReplayNothing(view);
    var nothing: Stream := [];
    assert forall x :: 0 <= x <= |nothing| ==> nothing[..x] == nothing;
  }

  /** The messages after some, after what those made. */
  lemma AlongRest(view: View, a: Stream, b: Stream, log: Log)
    requires Along(view, a + b, log)
    ensures Along(view, a, log) && Along(Replay(view, a), b, log)
  {
    hide See;
    hide M.Named;
    forall x | 0 <= x <= |a| ensures M.Named(Replay(view, a[..x]), log) {
      assert (a + b)[..x] == a[..x];
    }
    forall x | 0 <= x <= |b| ensures M.Named(Replay(Replay(view, a), b[..x]), log) {
      assert (a + b)[..|a| + x] == a + b[..x];
      ReplayConcat(view, a, b[..x]);
    }
  }

  lemma TakeSnapshot(stream: Stream, log: Log, base: View, m: nat, g: Gathered)
    requires M.Faithful(stream, log) && m < |stream| && stream[m].Snapshot? && M.Named(base, log)
    ensures Brings(stream, log, base, m + 1, Take(g, stream[m]))
  {
    hide Apply;
    hide M.Named;
    hide Along;
    OneMore(stream, log, m);
    M.NamedAt(stream, log, m + 1);
    hide M.Faithful;
    var taken := Take(g, stream[m]);
    assert Unsent(taken) == [] + [stream[m]];
    ReplayNothing(base);
    ReplaySnoc(base, [], stream[m]);
    AlongNothing(base, log);
    AlongSnoc(base, [], stream[m], log);
  }

  lemma TakeChange(stream: Stream, log: Log, base: View, m: nat, g: Gathered)
    requires M.Faithful(stream, log) && m < |stream| && stream[m].Changed? && Brings(stream, log, base, m, g)
    ensures Brings(stream, log, base, m + 1, Take(g, stream[m]))
  {
    hide Apply;
    hide M.Named;
    hide Along;
    hide Unsent;
    OneMore(stream, log, m);
    M.NamedAt(stream, log, m + 1);
    hide M.Faithful;
    hide Replay;
    hide Chained;
    hide End;
    var item := Item(stream[m].change, stream[m].cursor);
    UnsentSnoc(g, item);
    ChainedSnoc(From(base, g), g.steps, item);
    ReplaySnoc(base, Unsent(g), stream[m]);
    AlongSnoc(base, Unsent(g), stream[m], log);
    assert Take(g, stream[m]) == g.(steps := g.steps + [item], held := Some(item.cursor));
    UnsentIgnores(g.(steps := g.steps + [item]), Some(item.cursor));
  }

  lemma TakeBrings(stream: Stream, log: Log, base: View, m: nat, g: Gathered)
    requires M.Faithful(stream, log) && m < |stream| && Brings(stream, log, base, m, g) && M.Named(base, log)
    ensures Brings(stream, log, base, m + 1, Take(g, stream[m]))
  {
    hide M.Faithful;
    if stream[m].Snapshot? {
      TakeSnapshot(stream, log, base, m, g);
    } else if stream[m].Changed? {
      TakeChange(stream, log, base, m, g);
    } else {
      OneMore(stream, log, m);
      hide Replay;
      hide Along;
      assert Unsent(Take(g, stream[m])) == Unsent(g);
    }
  }

  function Fresh(held: Option<Cursor>): Gathered { Gathered(None, [], false, held) }

  lemma TakeNext(g: Gathered, stream: Stream, i: nat, m: nat)
    requires i <= m < |stream|
    ensures TakeAll(g, stream[i..m + 1]) == Take(TakeAll(g, stream[i..m]), stream[m])
  {
    assert stream[i..m + 1][..m - i] == stream[i..m];
  }

  lemma NothingBrings(stream: Stream, log: Log, a: nat)
    requires a <= |stream| && HeldAt(stream, a).Holding? && M.Named(HeldAt(stream, a), log)
    ensures Brings(stream, log, HeldAt(stream, a), a, TakeAll(Fresh(Some(HeldAt(stream, a).cursor)), stream[a..a]))
  {
    hide HeldAt;
    var base := HeldAt(stream, a);
    ReplayNothing(base);
    AlongNothing(base, log);
    assert Unsent(Fresh(Some(base.cursor))) == [];
    assert stream[a..a] == [];
  }

  /** Sent from where the stream is, what comes next brings the phone where the stream is then. */
  lemma {:induction false} GatherOn(stream: Stream, log: Log, a: nat, k: nat)
    requires M.Faithful(stream, log) && a <= k <= |stream| && HeldAt(stream, a).Holding?
    ensures Brings(stream, log, HeldAt(stream, a), k, TakeAll(Fresh(Some(HeldAt(stream, a).cursor)), stream[a..k]))
    decreases k
  {
    hide M.Faithful;
    hide HeldAt;
    hide TakeAll;
    hide Replay;
    hide Brings;
    var base := HeldAt(stream, a);
    M.NamedAt(stream, log, a);
    if k == a {
      NothingBrings(stream, log, a);
    } else {
      GatherOn(stream, log, a, k - 1);
      TakeNext(Fresh(Some(base.cursor)), stream, a, k - 1);
      TakeBrings(stream, log, base, k - 1, TakeAll(Fresh(Some(base.cursor)), stream[a..k - 1]));
    }
  }

  /** Whatever was held before, a snapshot brings the phone where the stream is. */
  lemma {:induction false} GatherSnapshot(stream: Stream, log: Log, base: View, held: Option<Cursor>, a: nat, k: nat)
    requires M.Faithful(stream, log) && a <= k <= |stream| && SnapshotIn(stream, a, k) && M.Named(base, log)
    ensures Brings(stream, log, base, k, TakeAll(Fresh(held), stream[a..k]))
    decreases k
  {
    hide M.Faithful;
    hide Brings;
    hide M.Named;
    var x :| a <= x < k && stream[x].Snapshot?;
    TakeNext(Fresh(held), stream, a, k - 1);
    hide TakeAll;
    var g := TakeAll(Fresh(held), stream[a..k - 1]);
    if stream[k - 1].Snapshot? {
      TakeSnapshot(stream, log, base, k - 1, g);
    } else {
      assert x < k - 1;
      GatherSnapshot(stream, log, base, held, a, k - 1);
      TakeBrings(stream, log, base, k - 1, g);
    }
  }

  // Before the base: what the phone has is skipped, and what is of an older epoch is all that is sent.

  /** Every change from `a` to `k` is of another epoch than `c`. */
  ghost predicate Away(stream: Stream, a: nat, k: nat, c: Cursor)
    requires a <= k <= |stream|
  {
    forall x :: a <= x < k && stream[x].Changed? ==> stream[x].cursor.epoch != c.epoch
  }

  /** Every change from `a` to `k` is of the epoch of `c` and no further on. */
  ghost predicate Behind(stream: Stream, a: nat, k: nat, c: Cursor)
    requires a <= k <= |stream|
  {
    forall x :: a <= x < k && stream[x].Changed? ==> Had(Some(c), stream[x].cursor)
  }

  lemma HeldAfter(stream: Stream, log: Log, x: nat)
    requires M.Faithful(stream, log) && x < |stream| && stream[x].Changed?
    ensures HeldAt(stream, x + 1).Holding? && HeldAt(stream, x + 1).cursor == stream[x].cursor
  {
    OneMore(stream, log, x);
  }

  lemma SameEpoch(stream: Stream, log: Log, a: nat, k: nat, x: nat, y: nat)
    requires M.Faithful(stream, log) && a <= x <= y < k <= |stream| && !SnapshotIn(stream, a, k)
    requires stream[x].Changed? && stream[y].Changed?
    ensures stream[x].cursor.epoch == stream[y].cursor.epoch
  {
    hide M.Faithful;
    HeldAfter(stream, log, x);
    HeldAfter(stream, log, y);
    CursorGrows(stream, log, x + 1, y + 1);
  }

  lemma AwayOrBehind(stream: Stream, log: Log, i: nat, j: nat, k: nat)
    requires M.Faithful(stream, log) && i <= k <= j <= |stream| && !SnapshotIn(stream, i, k)
    requires HeldAt(stream, j).Holding?
    ensures Away(stream, i, k, HeldAt(stream, j).cursor) || Behind(stream, i, k, HeldAt(stream, j).cursor)
  {
    var c := HeldAt(stream, j).cursor;
    assert Forward(stream);
    hide M.Faithful;
    hide HeldAt;
    if x :| i <= x < k && stream[x].Changed? && stream[x].cursor.epoch == c.epoch {
      forall y | i <= y < k && stream[y].Changed? ensures Had(Some(c), stream[y].cursor) {
        if x <= y { SameEpoch(stream, log, i, k, x, y); } else { SameEpoch(stream, log, i, k, y, x); }
        HeldAfter(stream, log, y);
        assert Onward(HeldAt(stream, y + 1), HeldAt(stream, j));
      }
    }
  }

  lemma {:induction false} TakeBehind(stream: Stream, held: Cursor, a: nat, k: nat)
    requires a <= k <= |stream| && !SnapshotIn(stream, a, k) && Behind(stream, a, k, held)
    ensures var g := TakeAll(Fresh(Some(held)), stream[a..k]); g == Fresh(Some(held)).(connection := g.connection)
    decreases k
  {
    if a < k {
      TakeBehind(stream, held, a, k - 1);
      TakeNext(Fresh(Some(held)), stream, a, k - 1);
    } else {
      assert stream[a..k] == [];
    }
  }

  /** Only changes of another epoch are taken, and the cursor is as it was or of one of them. */
  lemma {:induction false} TakeAway(stream: Stream, held: Cursor, a: nat, k: nat, c: Cursor)
    requires a <= k <= |stream| && !SnapshotIn(stream, a, k) && Away(stream, a, k, c)
    ensures var g := TakeAll(Fresh(Some(held)), stream[a..k]);
      && g.reset.None? && (forall x :: 0 <= x < |g.steps| ==> g.steps[x].cursor.epoch != c.epoch)
      && g.held.Some? && (g.held.value == held || Left(stream, a, k, c, g.held.value))
    decreases k
  {
    if a < k {
      TakeAway(stream, held, a, k - 1, c);
      TakeNext(Fresh(Some(held)), stream, a, k - 1);
      var g := TakeAll(Fresh(Some(held)), stream[a..k - 1]);
      if Left(stream, a, k - 1, c, g.held.value) {
        var x :| a <= x < k - 1 && stream[x].Changed? && stream[x].cursor.epoch != c.epoch;
        assert Left(stream, a, k, c, g.held.value);
      }
      if stream[k - 1].Changed? { assert Left(stream, a, k, c, stream[k - 1].cursor); }
    } else {
      assert stream[a..k] == [];
    }
  }

  /** The computer's place has left the epoch of `c` for one of an older change. */
  ghost predicate Left(stream: Stream, i: nat, at: nat, c: Cursor, held: Cursor)
    requires i <= at <= |stream|
  {
    held.epoch != c.epoch && exists x :: i <= x < at && stream[x].Changed? && stream[x].cursor.epoch != c.epoch
  }
}
