/** A chat open on a phone, from the computer's subscription (crates/sheprd-remote-control/src/native/
    live.rs, `opening` and `follow_chat`) through the phone's link
    (ios/SheprdRemoteCore/Sources/SheprdRemoteCore/Live/ComputerLink.swift, `follow`) to the store. */
module PhoneLinks {
  import opened Basics
  import opened Transcripts
  import opened Wire
  import opened ChatStores
  import opened LiveChats
  import D = Diff
  import M = Mirrors

  // ----- the phone's link

  /** `held` is the link's cursor of the chat, and `asked` where it subscribed again from. */
  datatype Phone = Phone(held: Option<Cursor>, store: Store, asked: seq<Cursor>)

  /** What follows does not apply to what the phone holds. */
  predicate Gap(held: Option<Cursor>, changes: seq<Item>) {
    held.Some? && changes != [] && changes[0].cursor != held.value.Next()
  }

  predicate Passes(held: Option<Cursor>, event: Event) {
    event.ChatChanges? ==> event.changes != [] && !Gap(held, event.changes)
  }

  function HeldNext(held: Option<Cursor>, event: Event): Option<Cursor> {
    match event
    case ChatSnapshot(_, at, _) => at
    case ChatResumed(cursor, _) => Some(cursor)
    case ChatChanges(changes) =>
      if Passes(held, event) then Some(changes[|changes| - 1].cursor) else held
    case _ => held
  }

  function Asks(held: Option<Cursor>, event: Event): seq<Cursor> {
    if event.ChatChanges? && Gap(held, event.changes) then [held.value] else []
  }

  function Arrive(p: Phone, event: Event): Phone {
    Phone(HeldNext(p.held, event), if Passes(p.held, event) then OnEvent(p.store, event) else p.store,
          p.asked + Asks(p.held, event))
  }

  function ArriveAll(p: Phone, events: seq<Event>): Phone {
    if events == [] then p else Arrive(ArriveAll(p, events[..|events| - 1]), events[|events| - 1])
  }

  class Link {
    var held: Option<Cursor>
    var asked: seq<Cursor>

    /** Whether the event is passed on. */
    method Follow(event: Event) returns (passed: bool)
      modifies this
      ensures passed == Passes(old(held), event) && held == HeldNext(old(held), event)
      ensures asked == old(asked) + Asks(old(held), event)
    {
      assert asked + [] == asked;
      passed := true;
      match event
      case ChatSnapshot(_, at, _) => held := at;
      case ChatResumed(cursor, _) => held := Some(cursor);
      case ChatChanges(changes) =>
        if changes == [] { return false; }
        if held.Some? && changes[0].cursor != held.value.Next() {
          asked := asked + [held.value];
          return false;
        }
        held := Some(changes[|changes| - 1].cursor);
      case _ =>
    }
  }

  lemma ArriveSnoc(p: Phone, events: seq<Event>, event: Event)
    ensures ArriveAll(p, events + [event]) == Arrive(ArriveAll(p, events), event)
  {
    assert (events + [event])[..|events|] == events;
  }

  lemma {:induction false} ArriveConcat(p: Phone, a: seq<Event>, b: seq<Event>)
    ensures ArriveAll(p, a + b) == ArriveAll(ArriveAll(p, a), b)
  {
    hide Arrive;
    if b == [] {
      assert a + b == a;
    } else {
      var n := |b| - 1;
      ArriveConcat(p, a, b[..n]);
      assert (a + b)[..|a| + n] == a + b[..n];
    }
  }

  lemma ArriveOne(p: Phone, event: Event)
    ensures ArriveAll(p, [event]) == Arrive(p, event)
  {
    ArriveSnoc(p, [], event);
    assert [] + [event] == [event];
  }

  /** The phone, link and store, is where a client that holds `view` is. */
  ghost predicate PhoneAt(p: Phone, view: View) {
    view.Holding? && p.held == Some(view.cursor) && p.store.cursor == p.held && StoreView(p.store) == view
  }

  /** The same, or no more than an empty chat without a cursor where such a client holds nothing. */
  ghost predicate PhoneIs(p: Phone, view: View) {
    if view.Holding? then PhoneAt(p, view)
    else view.Nothing? && p.held.None? && p.store.cursor.None? && !p.store.diverged
  }

  /** The phone shows what the log names. */
  ghost predicate PhoneNamed(p: Phone, log: Log) {
    exists view :: PhoneIs(p, view) && M.Named(view, log)
  }

  /** It does after every event. */
  ghost predicate Always(p: Phone, events: seq<Event>, log: Log) {
    forall k :: 0 <= k <= |events| ==> PhoneNamed(ArriveAll(p, events[..k]), log)
  }

  lemma AlwaysNothing(p: Phone, view: View, log: Log)
    requires PhoneIs(p, view) && M.Named(view, log)
    ensures Always(p, [], log)
  {
    var nothing: seq<Event> := [];
    assert forall k :: 0 <= k <= |nothing| ==> nothing[..k] == nothing;
    assert ArriveAll(p, nothing) == p;
  }

  lemma AlwaysSnoc(p: Phone, events: seq<Event>, event: Event, view: View, log: Log)
    requires Always(p, events, log) && M.Named(view, log) && PhoneIs(Arrive(ArriveAll(p, events), event), view)
    ensures Always(p, events + [event], log)
  {
    hide Arrive;
    hide PhoneIs;
    hide M.Named;
    var longer := events + [event];
    ArriveSnoc(p, events, event);
    forall k | 0 <= k <= |longer| ensures PhoneNamed(ArriveAll(p, longer[..k]), log) {
      if k <= |events| {
        assert longer[..k] == events[..k];
      } else {
        assert longer[..k] == longer;
      }
    }
  }

  lemma AlwaysConcat(p: Phone, a: seq<Event>, b: seq<Event>, log: Log)
    requires Always(p, a, log) && Always(ArriveAll(p, a), b, log)
    ensures Always(p, a + b, log)
  {
    hide Arrive;
    hide PhoneNamed;
    forall k | 0 <= k <= |a + b| ensures PhoneNamed(ArriveAll(p, (a + b)[..k]), log) {
      if k <= |a| {
        assert (a + b)[..k] == a[..k];
      } else {
        assert (a + b)[..k] == a + b[..k - |a|];
        ArriveConcat(p, a, b[..k - |a|]);
      }
    }
  }

  // A batch whose changes follow what the phone holds passes whole.

  lemma GroupPasses(p: Phone, view: View, items: seq<Item>)
    requires PhoneAt(p, view) && items != [] && Chained(view.cursor, items)
    requires Replay(view, Changeds(items)).Holding?
    ensures PhoneAt(Arrive(p, ChatChanges(items)), Replay(view, Changeds(items)))
    ensures Arrive(p, ChatChanges(items)).asked == p.asked
  {
    hide Apply;
    assert ChainedAt(view.cursor, items, 0);
    var t := view.transcript;
    ChangesSeen(view.cursor, t, items, |items|);
    assert Changeds(items)[..|items|] == Changeds(items);
  }

  function Flat(groups: seq<seq<Item>>): seq<Item> {
    if groups == [] then [] else Flat(groups[..|groups| - 1]) + groups[|groups| - 1]
  }

  lemma ChangedsConcat(a: seq<Item>, b: seq<Item>)
    ensures Changeds(a + b) == Changeds(a) + Changeds(b)
  {}

  lemma ChainedParts(start: Cursor, a: seq<Item>, b: seq<Item>)
    requires Chained(start, a + b)
    ensures Chained(start, a) && Chained(End(start, a), b)
  {
    forall x | 0 <= x < |a| ensures ChainedAt(start, a, x) { assert ChainedAt(start, a + b, x); }
    forall x | 0 <= x < |b| ensures ChainedAt(End(start, a), b, x) { assert ChainedAt(start, a + b, |a| + x); }
  }

  lemma {:induction false} CursorAtEnd(view: View, items: seq<Item>)
    requires view.Holding? && Replay(view, Changeds(items)).Holding?
    ensures Replay(view, Changeds(items)).cursor == End(view.cursor, items)
  {
    hide Apply;
    if items != [] {
      var n := |items| - 1;
      assert items == items[..n] + [items[n]];
      ChangedsSnoc(items[..n], items[n]);
      ReplaySnoc(view, Changeds(items[..n]), Changed(items[n].change, items[n].cursor));
    }
  }

  lemma HoldingAlong(view: View, stream: Stream, log: Log)
    requires view.Holding? && Along(view, stream, log) && forall m :: 0 <= m < |stream| ==> stream[m].Changed?
    ensures Replay(view, stream).Holding? && M.Named(Replay(view, stream), log)
    decreases |stream|
  {
    hide Apply;
    assert stream[..|stream|] == stream;
    if stream != [] {
      var n := |stream| - 1;
      assert stream == stream[..n] + [stream[n]];
      AlongRest(view, stream[..n], [stream[n]], log);
      HoldingAlong(view, stream[..n], log);
    }
  }

  lemma {:induction false} GroupsPass(p: Phone, view: View, groups: seq<seq<Item>>, log: Log)
    requires PhoneAt(p, view) && (forall g :: 0 <= g < |groups| ==> groups[g] != [])
    requires Chained(view.cursor, Flat(groups)) && Along(view, Changeds(Flat(groups)), log)
    ensures PhoneAt(ArriveAll(p, Batches(groups)), Replay(view, Changeds(Flat(groups))))
    ensures ArriveAll(p, Batches(groups)).asked == p.asked && Always(p, Batches(groups), log)
  {
    hide Arrive;
    hide PhoneAt;
    hide Along;
    hide Always;
    hide See;
    hide M.Named;
    if groups == [] {
      ReplayNothing(view);
      assert Batches(groups) == [] && Changeds([]) == [];
      HoldingOf(p, view);
      HoldingAlong(view, [], log);
      AlwaysNothing(p, view, log);
    } else {
      hide ArriveAll;
      hide Replay;
      var n := |groups| - 1;
      var a, b := Flat(groups[..n]), groups[n];
      HoldingOf(p, view);
      ChainedParts(view.cursor, a, b);
      ChangedsConcat(a, b);
      AlongRest(view, Changeds(a), Changeds(b), log);
      GroupsPass(p, view, groups[..n], log);
      HoldingAlong(view, Changeds(a), log);
      CursorAtEnd(view, a);
      var mid := Replay(view, Changeds(a));
      HoldingAlong(mid, Changeds(b), log);
      var q := ArriveAll(p, Batches(groups[..n]));
      GroupPasses(q, mid, b);
      ReplayConcat(view, Changeds(a), Changeds(b));
      assert Batches(groups) == Batches(groups[..n]) + [ChatChanges(b)];
      ArriveSnoc(p, Batches(groups[..n]), ChatChanges(b));
      AlwaysSnoc(p, Batches(groups[..n]), ChatChanges(b), Replay(mid, Changeds(b)), log);
    }
  }

  lemma HoldingOf(p: Phone, view: View)
    requires PhoneAt(p, view)
    ensures view.Holding? && PhoneIs(p, view)
  {}

  lemma {:induction false} SplitParts(steps: seq<Item>)
    ensures Flat(SplitAtPictures(steps)) == steps
    ensures forall g :: 0 <= g < |SplitAtPictures(steps)| ==> SplitAtPictures(steps)[g] != []
  {
    if steps != [] {
      var n := |steps| - 1;
      SplitParts(steps[..n]);
      var groups, step := SplitAtPictures(steps[..n]), steps[n];
      var m := |groups| - 1;
      assert steps == steps[..n] + [step];
      if groups == [] || IsPicture(step) {
        assert (groups + [[step]])[..|groups|] == groups;
      } else {
        assert groups[m := groups[m] + [step]][..m] == groups[..m];
      }
    }
  }

  /** A send that brings the phone somewhere passes whole, and after each of its events the phone
      shows what the log names. */
  lemma SendPasses(stream: Stream, log: Log, p: Phone, view: View, k: nat, g: Gathered, connected: bool)
    requires PhoneIs(p, view) && (view.Holding? || g.reset.Some?)
    requires M.Named(view, log) && k <= |stream| && Brings(stream, log, view, k, g)
    ensures PhoneAt(ArriveAll(p, Messages(g, connected)), HeldAt(stream, k))
    ensures ArriveAll(p, Messages(g, connected)).asked == p.asked && Always(p, Messages(g, connected), log)
  {
    hide See;
    hide M.Named;
    hide HeldAt;
    hide Replay;
    hide Always;
    hide PhoneAt;
    hide Along;
    hide Chained;
    var groups := SplitAtPictures(g.steps);
    SplitParts(g.steps);
    var changes := Changeds(g.steps);
    var start, q := view, p;
    var first: seq<Event> := [];
    AlwaysNothing(p, view, log);
    if g.reset.Some? {
      var (t, c) := g.reset.value;
      start := Holding(c, t);
      first := [ChatSnapshot(t, Some(c), connected)];
      q := SnapshotArrives(p, view, t, c, connected, changes, log);
      ReplayConcat(view, [Snapshot(c, t)], changes);
      assert Unsent(g) == [Snapshot(c, t)] + changes;
    } else {
      assert Unsent(g) == changes;
      assert ArriveAll(p, []) == p;
    }
    GroupsPass(q, start, groups, log);
    var middle := Batches(groups);
    AlwaysConcat(p, first, middle, log);
    ArriveConcat(p, first, middle);
    var last := if g.connection then [ChatConnection(connected)] else [];
    ConnectionArrives(p, first + middle, HeldAt(stream, k), last, connected, log);
    assert Messages(g, connected) == first + middle + last;
  }

  lemma ReplayOne(view: View, message: ServerMessage)
    ensures Replay(view, [message]) == See(view, message)
  {
    ReplayNothing(view);
    ReplaySnoc(view, [], message);
    assert [] + [message] == [message];
  }

  lemma SnapshotArrives(p: Phone, view: View, t: Transcript, c: Cursor, connected: bool, changes: Stream, log: Log)
    returns (q: Phone)
    requires PhoneIs(p, view) && M.Named(view, log) && Along(view, [Snapshot(c, t)] + changes, log)
    ensures var event := ChatSnapshot(t, Some(c), connected);
      && q == ArriveAll(p, [event]) && PhoneAt(q, Holding(c, t)) && q.asked == p.asked && Always(p, [event], log)
      && Along(Holding(c, t), changes, log) && Replay(view, [Snapshot(c, t)]) == Holding(c, t)
  {
    var event := ChatSnapshot(t, Some(c), connected);
    q := ArriveAll(p, [event]);
    ArriveOne(p, event);
    AlongRest(view, [Snapshot(c, t)], changes, log);
    ReplayOne(view, Snapshot(c, t));
    assert [Snapshot(c, t)][..1] == [Snapshot(c, t)];
    assert M.Named(Replay(view, [Snapshot(c, t)][..1]), log);
    hide M.Named;
    AlwaysNothing(p, view, log);
    assert ArriveAll(p, []) == p;
    AlwaysSnoc(p, [], event, Holding(c, t), log);
    assert [] + [event] == [event];
  }

  lemma ConnectionArrives(p: Phone, events: seq<Event>, view: View, last: seq<Event>, connected: bool, log: Log)
    requires Always(p, events, log) && PhoneIs(ArriveAll(p, events), view)
    requires last == [] || last == [ChatConnection(connected)]
    ensures PhoneIs(ArriveAll(p, events + last), view) && Always(p, events + last, log)
    ensures ArriveAll(p, events + last).asked == ArriveAll(p, events).asked
  {
    hide M.Named;
    if last == [] {
      assert events + last == events;
    } else {
      assert events[..|events|] == events;
      assert PhoneNamed(ArriveAll(p, events[..|events|]), log);
      var named :| PhoneIs(ArriveAll(p, events), named) && M.Named(named, log);
      assert named == view;
      hide Always;
      ArriveSnoc(p, events, ChatConnection(connected));
      AlwaysSnoc(p, events, ChatConnection(connected), view, log);
    }
  }

  /** On the way from `p` to `q` the link asked again, from `c` each time. */
  ghost predicate AsksFrom(p: Phone, q: Phone, c: Option<Cursor>) {
    && |p.asked| <= |q.asked|
    && forall x :: 0 <= x < |q.asked| ==>
         if x < |p.asked| then q.asked[x] == p.asked[x] else Some(q.asked[x]) == c
  }

  // A batch of another epoch is dropped whole.

  lemma {:induction false} GroupsDrop(p: Phone, view: View, groups: seq<seq<Item>>, log: Log)
    requires PhoneAt(p, view) && M.Named(view, log) && (forall g :: 0 <= g < |groups| ==> groups[g] != [])
    requires forall g :: 0 <= g < |groups| ==> groups[g] != [] && groups[g][0].cursor.epoch != view.cursor.epoch
    ensures PhoneAt(ArriveAll(p, Batches(groups)), view) && Always(p, Batches(groups), log)
    ensures AsksFrom(p, ArriveAll(p, Batches(groups)), Some(view.cursor))
  {
    hide M.Named;
    hide Always;
    hide Arrive;
    hide PhoneAt;
    if groups == [] {
      assert Batches(groups) == [];
      HoldingOf(p, view);
      AlwaysNothing(p, view, log);
    } else {
      hide ArriveAll;
      var n := |groups| - 1;
      GroupsDrop(p, view, groups[..n], log);
      GroupDropped(ArriveAll(p, Batches(groups[..n])), view, groups[n]);
      assert Batches(groups) == Batches(groups[..n]) + [ChatChanges(groups[n])];
      ArriveSnoc(p, Batches(groups[..n]), ChatChanges(groups[n]));
      AlwaysSnoc(p, Batches(groups[..n]), ChatChanges(groups[n]), view, log);
    }
  }

  lemma GroupDropped(p: Phone, view: View, items: seq<Item>)
    requires PhoneAt(p, view) && items != [] && items[0].cursor.epoch != view.cursor.epoch
    ensures var q := Arrive(p, ChatChanges(items));
      PhoneAt(q, view) && PhoneIs(q, view) && q.asked == p.asked + [view.cursor]
  {
    GapDrops(p, items);
  }

  lemma {:induction false} FlatHas(groups: seq<seq<Item>>, g: nat, e: nat)
    requires g < |groups| && groups[g] != []
    requires forall x :: 0 <= x < |Flat(groups)| ==> Flat(groups)[x].cursor.epoch != e
    ensures groups[g][0].cursor.epoch != e
    decreases |groups|
  {
    var n := |groups| - 1;
    var before := Flat(groups[..n]);
    if g < n {
      forall x | 0 <= x < |before| ensures before[x].cursor.epoch != e { assert Flat(groups)[x] == before[x]; }
      FlatHas(groups[..n], g, e);
    } else {
      assert Flat(groups)[|before|] == groups[g][0];
    }
  }

  lemma SendDropped(log: Log, p: Phone, view: View, g: Gathered, connected: bool)
    requires PhoneAt(p, view) && M.Named(view, log) && g.reset.None?
    requires forall x :: 0 <= x < |g.steps| ==> g.steps[x].cursor.epoch != view.cursor.epoch
    ensures PhoneAt(ArriveAll(p, Messages(g, connected)), view) && Always(p, Messages(g, connected), log)
    ensures AsksFrom(p, ArriveAll(p, Messages(g, connected)), Some(view.cursor))
  {
    hide M.Named;
    hide Always;
    hide ArriveAll;
    hide PhoneAt;
    HoldingOf(p, view);
    var groups: seq<seq<Item>> := SplitAtPictures(g.steps);
    SplitParts(g.steps);
    forall x: nat | x < |groups| ensures groups[x] != [] && groups[x][0].cursor.epoch != view.cursor.epoch {
      FlatHas(groups, x, view.cursor.epoch);
    }
    GroupsDrop(p, view, groups, log);
    var middle := Batches(groups);
    var last := if g.connection then [ChatConnection(connected)] else [];
    ConnectionArrives(p, middle, view, last, connected, log);
    assert Messages(g, connected) == [] + middle + last && [] + middle == middle;
  }

  // ----- one subscription

  /** `opening`: nothing new when the phone's cursor is the chat's, else the whole transcript, which
      before the chat sent any is an empty one without a cursor. */
  function Opening(since: Option<Cursor>, base: View, connected: bool): Event {
    if !base.Holding? then ChatSnapshot(D.Reading(D.PLAIN, [], false), None, connected)
    else if since == Some(base.cursor) then ChatResumed(base.cursor, connected)
    else ChatSnapshot(base.transcript, Some(base.cursor), connected)
  }

  datatype Sent = Sent(events: seq<Event>, held: Option<Cursor>)

  /** The sends after the opening: each has what came since the one before, up to the next cut. */
  function SendAll(stream: Stream, i: nat, held: Option<Cursor>, cuts: seq<nat>, connected: nat -> bool): Sent {
    if cuts == [] then Sent([], held)
    else
      var n := |cuts| - 1;
      var before := SendAll(stream, i, held, cuts[..n], connected);
      var from := if n == 0 then i else cuts[n - 1];
      if !(from <= cuts[n] <= |stream|) then before
      else
        var g := TakeAll(Fresh(before.held), stream[from..cuts[n]]);
        Sent(before.events + Messages(g, connected(n)), g.held)
  }

  ghost predicate Rising(cuts: seq<nat>, low: nat, high: nat) {
    && (forall a :: 0 <= a < |cuts| ==> low <= cuts[a] <= high)
    && (forall a, b :: 0 <= a < b < |cuts| ==> cuts[a] <= cuts[b])
  }

  /** Subscribed at `i` with the base read at `j`, and sent up to `at`, the phone has caught up with
      the stream; until then it stays at the base. */
  ghost predicate CaughtUp(stream: Stream, i: nat, j: nat, at: nat)
    requires i <= at <= |stream|
  {
    at >= j || SnapshotIn(stream, i, at)
  }

  ghost function Place(stream: Stream, i: nat, j: nat, at: nat): View
    requires i <= at <= |stream| && j <= |stream|
  {
    if CaughtUp(stream, i, j, at) then HeldAt(stream, at) else HeldAt(stream, j)
  }

  /** Where the computer takes the phone to be. */
  ghost predicate ServerAt(stream: Stream, i: nat, j: nat, at: nat, held: Cursor)
    requires i <= at <= |stream| && j <= |stream|
  {
    var place := Place(stream, i, j, at);
    && place.Holding?
    && (held == place.cursor || (!CaughtUp(stream, i, j, at) && Left(stream, i, at, place.cursor, held)))
  }

  lemma SnapshotSince(stream: Stream, i: nat, at: nat, k: nat)
    requires i <= at <= k <= |stream|
    ensures SnapshotIn(stream, i, k) <==> SnapshotIn(stream, i, at) || SnapshotIn(stream, at, k)
  {
    if SnapshotIn(stream, i, k) {
      var x :| i <= x < k && stream[x].Snapshot?;
      assert x < at ==> SnapshotIn(stream, i, at);
      assert x >= at ==> SnapshotIn(stream, at, k);
    }
    if SnapshotIn(stream, i, at) { var x :| i <= x < at && stream[x].Snapshot?; }
    if SnapshotIn(stream, at, k) { var x :| at <= x < k && stream[x].Snapshot?; }
  }

  /** With no snapshot up to the base, its epoch is the only one and the computer never leaves it. */
  lemma NeverLeft(stream: Stream, log: Log, i: nat, j: nat, at: nat, held: Cursor)
    requires M.Faithful(stream, log) && i <= at <= j <= |stream| && !SnapshotIn(stream, i, j)
    requires HeldAt(stream, j).Holding?
    ensures !Left(stream, i, at, HeldAt(stream, j).cursor, held)
  {
    hide M.Faithful;
    var c := HeldAt(stream, j).cursor;
    forall x | i <= x < at && stream[x].Changed? ensures stream[x].cursor.epoch == c.epoch {
      HeldAfter(stream, log, x);
      CursorGrows(stream, log, x + 1, j);
    }
  }

  /** One send, wherever it cuts the queue. */
  lemma OneSend(stream: Stream, log: Log, i: nat, j: nat, at: nat, k: nat, held: Cursor, p: Phone, connected: bool)
    requires M.Faithful(stream, log) && i <= at <= k <= |stream| && i <= j <= |stream|
    requires ServerAt(stream, i, j, at, held) && PhoneAt(p, Place(stream, i, j, at)) && HeldAt(stream, j).Holding?
    ensures var g := TakeAll(Fresh(Some(held)), stream[at..k]);
      && g.held.Some? && ServerAt(stream, i, j, k, g.held.value)
      && PhoneAt(ArriveAll(p, Messages(g, connected)), Place(stream, i, j, k))
      && AsksFrom(p, ArriveAll(p, Messages(g, connected)), Some(HeldAt(stream, j).cursor))
      && Always(p, Messages(g, connected), log)
  {
    hide M.Faithful;
    hide M.Named;
    hide HeldAt;
    hide TakeAll;
    hide PhoneAt;
    hide PhoneIs;
    hide Always;
    hide Messages;
    hide ArriveAll;
    hide SnapshotIn;
    var g := TakeAll(Fresh(Some(held)), stream[at..k]);
    HoldingOf(p, Place(stream, i, j, at));
    SnapshotSince(stream, i, at, k);
    M.NamedAt(stream, log, at);
    M.NamedAt(stream, log, j);
    if CaughtUp(stream, i, j, at) {
      hide Left;
      GatherOn(stream, log, at, k);
      SendPasses(stream, log, p, HeldAt(stream, at), k, g, connected);
    } else if SnapshotIn(stream, at, k) {
      hide Left;
      GatherSnapshot(stream, log, HeldAt(stream, j), Some(held), at, k);
      SendPasses(stream, log, p, HeldAt(stream, j), k, g, connected);
    } else if k >= j {
      SnapshotSince(stream, i, j, k);
      NeverLeft(stream, log, i, j, at, held);
      hide Left;
      PastBase(stream, log, i, j, at, k);
      SendPasses(stream, log, p, HeldAt(stream, j), k, g, connected);
    } else {
      BeforeBase(stream, log, i, j, at, k, held);
      SendDropped(log, p, HeldAt(stream, j), g, connected);
    }
  }

  /** What was queued before the base is skipped, and the rest brings the phone where the stream is. */
  lemma {:induction false} PastBase(stream: Stream, log: Log, i: nat, j: nat, at: nat, k: nat)
    requires M.Faithful(stream, log) && i <= at <= j <= k <= |stream| && !SnapshotIn(stream, i, j)
    requires HeldAt(stream, j).Holding?
    ensures var base := HeldAt(stream, j);
      Brings(stream, log, base, k, TakeAll(Fresh(Some(base.cursor)), stream[at..k]))
    decreases k
  {
    hide M.Faithful;
    hide HeldAt;
    hide TakeAll;
    hide Brings;
    var base := HeldAt(stream, j);
    M.NamedAt(stream, log, j);
    if k == j {
      SnapshotSince(stream, i, at, j);
      AllBehind(stream, log, i, j, at);
      TakeBehind(stream, base.cursor, at, j);
      FreshBrings(stream, log, j, TakeAll(Fresh(Some(base.cursor)), stream[at..j]));
    } else {
      PastBase(stream, log, i, j, at, k - 1);
      TakeNext(Fresh(Some(base.cursor)), stream, at, k - 1);
      TakeBrings(stream, log, base, k - 1, TakeAll(Fresh(Some(base.cursor)), stream[at..k - 1]));
    }
  }

  lemma FreshBrings(stream: Stream, log: Log, j: nat, g: Gathered)
    requires j <= |stream| && HeldAt(stream, j).Holding? && M.Named(HeldAt(stream, j), log)
    requires g == Fresh(Some(HeldAt(stream, j).cursor)).(connection := g.connection)
    ensures Brings(stream, log, HeldAt(stream, j), j, g)
  {
    hide HeldAt;
    hide M.Named;
    var base := HeldAt(stream, j);
    ReplayNothing(base);
    AlongNothing(base, log);
    assert Unsent(g) == [];
  }

  lemma AllBehind(stream: Stream, log: Log, i: nat, j: nat, at: nat)
    requires M.Faithful(stream, log) && i <= at <= j <= |stream| && !SnapshotIn(stream, i, j)
    requires HeldAt(stream, j).Holding?
    ensures Behind(stream, at, j, HeldAt(stream, j).cursor)
  {
    hide M.Faithful;
    var c := HeldAt(stream, j).cursor;
    forall x | at <= x < j && stream[x].Changed? ensures Had(Some(c), stream[x].cursor) {
      HeldAfter(stream, log, x);
      CursorGrows(stream, log, x + 1, j);
    }
  }

  /** Before the base and without a snapshot, nothing is sent that the phone could take. */
  lemma BeforeBase(stream: Stream, log: Log, i: nat, j: nat, at: nat, k: nat, held: Cursor)
    requires M.Faithful(stream, log) && i <= at <= k < j <= |stream| && !SnapshotIn(stream, i, k)
    requires ServerAt(stream, i, j, at, held)
    ensures var g := TakeAll(Fresh(Some(held)), stream[at..k]);
      && g.held.Some? && ServerAt(stream, i, j, k, g.held.value) && g.reset.None?
      && forall x :: 0 <= x < |g.steps| ==> g.steps[x].cursor.epoch != HeldAt(stream, j).cursor.epoch
  {
    hide M.Faithful;
    hide HeldAt;
    hide TakeAll;
    var c := HeldAt(stream, j).cursor;
    var g := TakeAll(Fresh(Some(held)), stream[at..k]);
    SnapshotSince(stream, i, at, k);
    AwayOrBehind(stream, log, i, j, k);
    if Away(stream, i, k, c) {
      TakeAway(stream, held, at, k, c);
      if Left(stream, i, at, c, g.held.value) {
        var x :| i <= x < at && stream[x].Changed? && stream[x].cursor.epoch != c.epoch;
        assert Left(stream, i, k, c, g.held.value);
      }
      if Left(stream, at, k, c, g.held.value) {
        var x :| at <= x < k && stream[x].Changed? && stream[x].cursor.epoch != c.epoch;
        assert Left(stream, i, k, c, g.held.value);
      }
    } else {
      assert !Left(stream, i, at, c, held);
      TakeBehind(stream, held, at, k);
    }
  }

  /** Over every way the sends cut the queue: once a send reaches the base, or a snapshot came since
      the subscription, the phone is exactly where the stream is; until then it stays at the base;
      and after every event it shows what the log names. */
  lemma {:induction false} SendsFollow(
    stream: Stream, log: Log, i: nat, j: nat, cuts: seq<nat>, connected: nat -> bool, p: Phone)
    requires M.Faithful(stream, log) && i <= j <= |stream| && Rising(cuts, i, |stream|)
    requires PhoneAt(p, HeldAt(stream, j))
    ensures var sent := SendAll(stream, i, Some(HeldAt(stream, j).cursor), cuts, connected);
      var at := if cuts == [] then i else cuts[|cuts| - 1];
      && i <= at <= |stream| && sent.held.Some? && ServerAt(stream, i, j, at, sent.held.value)
      && PhoneAt(ArriveAll(p, sent.events), Place(stream, i, j, at)) && Always(p, sent.events, log)
      && AsksFrom(p, ArriveAll(p, sent.events), Some(HeldAt(stream, j).cursor))
  {
    hide M.Faithful;
    hide HeldAt;
    hide TakeAll;
    hide PhoneAt;
    hide PhoneIs;
    hide Always;
    hide Messages;
    hide ServerAt;
    hide Place;
    hide SendAll;
    hide ArriveAll;
    HoldingOf(p, HeldAt(stream, j));
    var c := Some(HeldAt(stream, j).cursor);
    if cuts == [] {
      M.NamedAt(stream, log, j);
      SendNone(stream, i, j, connected, p);
      AlwaysNothing(p, HeldAt(stream, j), log);
    } else {
      var n := |cuts| - 1;
      RisingParts(cuts, i, |stream|);
      hide Rising;
      SendsFollow(stream, log, i, j, cuts[..n], connected, p);
      var before := SendAll(stream, i, c, cuts[..n], connected);
      var at := if n == 0 then i else cuts[n - 1];
      assert at == if cuts[..n] == [] then i else cuts[..n][n - 1];
      var q := ArriveAll(p, before.events);
      OneSend(stream, log, i, j, at, cuts[n], before.held.value, q, connected(n));
      var g := TakeAll(Fresh(before.held), stream[at..cuts[n]]);
      SendMore(stream, i, c, cuts, connected);
      ArriveConcat(p, before.events, Messages(g, connected(n)));
      AlwaysConcat(p, before.events, Messages(g, connected(n)), log);
    }
  }

  lemma SendNone(stream: Stream, i: nat, j: nat, connected: nat -> bool, p: Phone)
    requires i <= j <= |stream| && PhoneAt(p, HeldAt(stream, j))
    ensures var sent := SendAll(stream, i, Some(HeldAt(stream, j).cursor), [], connected);
      && sent == Sent([], Some(HeldAt(stream, j).cursor)) && ServerAt(stream, i, j, i, HeldAt(stream, j).cursor)
      && ArriveAll(p, []) == p && PhoneAt(p, Place(stream, i, j, i))
  {
    hide HeldAt;
    assert !SnapshotIn(stream, i, i);
  }

  lemma SendMore(stream: Stream, i: nat, held: Option<Cursor>, cuts: seq<nat>, connected: nat -> bool)
    requires cuts != []
    requires var n := |cuts| - 1;
      (if n == 0 then i else cuts[n - 1]) <= cuts[n] <= |stream|
    ensures var n := |cuts| - 1;
      var before := SendAll(stream, i, held, cuts[..n], connected);
      var g := TakeAll(Fresh(before.held), stream[if n == 0 then i else cuts[n - 1]..cuts[n]]);
      SendAll(stream, i, held, cuts, connected) == Sent(before.events + Messages(g, connected(n)), g.held)
  {
    hide TakeAll;
    hide Messages;
  }

  lemma RisingParts(cuts: seq<nat>, low: nat, high: nat)
    requires Rising(cuts, low, high) && cuts != []
    ensures var n := |cuts| - 1;
      && Rising(cuts[..n], low, high) && low <= cuts[n] <= high && (n > 0 ==> cuts[n - 1] <= cuts[n])
  {}

  // A subscription from before the chat sent anything.

  lemma {:induction false} NothingYet(stream: Stream, log: Log, a: nat, k: nat)
    requires M.Faithful(stream, log) && a <= k <= |stream| && HeldAt(stream, a) == Nothing
    requires !SnapshotIn(stream, a, k)
    ensures HeldAt(stream, k) == Nothing
    ensures var g := TakeAll(Fresh(None), stream[a..k]); g == Fresh(None).(connection := g.connection)
    decreases k
  {
    hide M.Faithful;
    hide Apply;
    if a == k {
      assert stream[a..k] == [];
    } else {
      NothingYet(stream, log, a, k - 1);
      TakeNext(Fresh(None), stream, a, k - 1);
      OneMore(stream, log, k - 1);
    }
  }

  lemma {:induction false} HoldingStays(stream: Stream, log: Log, a: nat, k: nat)
    requires M.Faithful(stream, log) && a <= k <= |stream| && HeldAt(stream, k) == Nothing
    ensures HeldAt(stream, a) == Nothing && !SnapshotIn(stream, a, k)
    decreases k
  {
    hide M.Faithful;
    hide Apply;
    if a < k {
      OneMore(stream, log, k - 1);
      HoldingStays(stream, log, a, k - 1);
    }
  }

  lemma NeedsReset(stream: Stream, log: Log, k: nat, g: Gathered)
    requires k <= |stream| && Brings(stream, log, Nothing, k, g)
    ensures g.reset.Some?
  {
    hide HeldAt;
    hide Along;
    if g.reset.None? {
      assert Unsent(g) == Changeds(g.steps);
      NothingBreaks(Changeds(g.steps));
    }
  }

  lemma {:induction false} NothingBreaks(stream: Stream)
    requires forall x :: 0 <= x < |stream| ==> stream[x].Changed?
    ensures !Replay(Nothing, stream).Holding?
  {
    if stream != [] { NothingBreaks(stream[..|stream| - 1]); }
  }

  /** One send to a phone that is where the stream is, or has nothing while the stream has nothing. */
  lemma OneSendOn(stream: Stream, log: Log, at: nat, k: nat, p: Phone, connected: bool)
    requires M.Faithful(stream, log) && at <= k <= |stream| && PhoneIs(p, HeldAt(stream, at))
    ensures var g := TakeAll(Fresh(CursorOf(HeldAt(stream, at))), stream[at..k]);
      var q := ArriveAll(p, Messages(g, connected));
      && g.held == CursorOf(HeldAt(stream, k)) && PhoneIs(q, HeldAt(stream, k)) && q.asked == p.asked
      && Always(p, Messages(g, connected), log)
  {
    hide M.Faithful;
    hide M.Named;
    hide HeldAt;
    hide TakeAll;
    hide PhoneAt;
    hide Always;
    hide ArriveAll;
    hide SnapshotIn;
    var view := HeldAt(stream, at);
    var g := TakeAll(Fresh(CursorOf(view)), stream[at..k]);
    M.NamedAt(stream, log, at);
    if view.Holding? {
      hide Messages;
      GatherOn(stream, log, at, k);
      SendPasses(stream, log, p, view, k, g, connected);
    } else if SnapshotIn(stream, at, k) {
      hide Messages;
      GatherSnapshot(stream, log, view, None, at, k);
      NeedsReset(stream, log, k, g);
      SendPasses(stream, log, p, view, k, g, connected);
    } else {
      NothingYet(stream, log, at, k);
      NothingSent(log, p, g, connected);
    }
  }

  lemma NothingSent(log: Log, p: Phone, g: Gathered, connected: bool)
    requires PhoneIs(p, Nothing) && g == Fresh(None).(connection := g.connection)
    ensures var q := ArriveAll(p, Messages(g, connected));
      PhoneIs(q, Nothing) && q.asked == p.asked && Always(p, Messages(g, connected), log)
  {
    hide Always;
    AlwaysNothing(p, Nothing, log);
    assert ArriveAll(p, []) == p;
    assert SplitAtPictures([]) == [] && Batches([]) == [];
    var last := if g.connection then [ChatConnection(connected)] else [];
    ConnectionArrives(p, [], Nothing, last, connected, log);
    assert Messages(g, connected) == [] + last;
  }

  lemma SendEmpty(stream: Stream, i: nat, connected: nat -> bool, p: Phone)
    ensures SendAll(stream, i, None, [], connected) == Sent([], None) && ArriveAll(p, []) == p
  {}

  /** Then the phone is where the stream is after every send. */
  lemma {:induction false} SendsFollowNothing(
    stream: Stream, log: Log, i: nat, j: nat, cuts: seq<nat>, connected: nat -> bool, p: Phone)
    requires M.Faithful(stream, log) && i <= j <= |stream| && Rising(cuts, i, |stream|)
    requires HeldAt(stream, j) == Nothing && PhoneIs(p, Nothing)
    ensures var sent := SendAll(stream, i, None, cuts, connected);
      var at := if cuts == [] then i else cuts[|cuts| - 1];
      && i <= at <= |stream| && sent.held == CursorOf(HeldAt(stream, at))
      && PhoneIs(ArriveAll(p, sent.events), HeldAt(stream, at)) && Always(p, sent.events, log)
      && ArriveAll(p, sent.events).asked == p.asked
  {
    hide M.Faithful;
    hide HeldAt;
    hide TakeAll;
    hide PhoneIs;
    hide Always;
    hide Messages;
    hide SendAll;
    hide ArriveAll;
    if cuts == [] {
      HoldingStays(stream, log, i, j);
      SendEmpty(stream, i, connected, p);
      AlwaysNothing(p, Nothing, log);
    } else {
      var n := |cuts| - 1;
      RisingParts(cuts, i, |stream|);
      hide Rising;
      SendsFollowNothing(stream, log, i, j, cuts[..n], connected, p);
      var before := SendAll(stream, i, None, cuts[..n], connected);
      var at := if n == 0 then i else cuts[n - 1];
      assert at == if cuts[..n] == [] then i else cuts[..n][n - 1];
      OneSendOn(stream, log, at, cuts[n], ArriveAll(p, before.events), connected(n));
      var g := TakeAll(Fresh(before.held), stream[at..cuts[n]]);
      SendMore(stream, i, None, cuts, connected);
      ArriveConcat(p, before.events, Messages(g, connected(n)));
      AlwaysConcat(p, before.events, Messages(g, connected(n)), log);
    }
  }

  // ----- a send that comes too early

  /** A change of another epoch than the base's, sent on its own: the link drops it and asks again from
      where the phone is. */
  lemma EarlySendIsDropped(p: Phone, base: Cursor, change: Change, cursor: Cursor, connected: bool)
    requires p.held == Some(base) && cursor.epoch != base.epoch
    ensures var g := TakeAll(Fresh(Some(base)), [Changed(change, cursor)]);
      && g.held == Some(cursor) && g.steps == [Item(change, cursor)]
      && ArriveAll(p, Messages(g, connected)) == p.(asked := p.asked + [base])
  {
    hide Arrive;
    var message, items := Changed(change, cursor), [Item(change, cursor)];
    TakeOne(Fresh(Some(base)), message);
    var g := TakeAll(Fresh(Some(base)), [message]);
    hide TakeAll;
    assert g == Fresh(Some(base)).(steps := items, held := Some(cursor));
    SplitOne(items[0]);
    assert Batches([items]) == [ChatChanges(items)];
    assert Messages(g, connected) == [ChatChanges(items)];
    ArriveOne(p, ChatChanges(items));
    GapDrops(p, items);
  }

  lemma GapDrops(p: Phone, items: seq<Item>)
    requires Gap(p.held, items)
    ensures Arrive(p, ChatChanges(items)) == p.(asked := p.asked + [p.held.value])
  {}

  lemma TakeOne(g: Gathered, message: ServerMessage)
    ensures TakeAll(g, [message]) == Take(g, message)
  {
    TakeNext(g, [message], 0, 0);
    assert [message][0..1] == [message] && [message][0..0] == [];
  }

  lemma SplitOne(item: Item)
    ensures SplitAtPictures([item]) == [[item]]
  {
    assert [item][..0] == [];
    assert SplitAtPictures([]) == [];
  }
}
