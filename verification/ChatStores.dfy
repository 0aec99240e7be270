/** One open chat on the phone (ios/SheprdRemote/Stores.swift, `ChatStore.apply`): what it shows
    against the log of the computer it follows. */
module ChatStores {
  import opened Basics
  import opened Transcripts
  import opened Wire
  import D = Diff

  datatype Item = Item(change: Change, cursor: Cursor)
  datatype Event =
    | ChatSnapshot(transcript: Transcript, at: Option<Cursor>, connected: bool)
    | ChatResumed(cursor: Cursor, connected: bool)
    | ChatChanges(changes: seq<Item>)
    | ChatConnection(connected: bool)
    | Other

  datatype Store = Store(
    transcript: Option<Transcript>, cursor: Option<Cursor>, connected: bool, stale: bool, diverged: bool)

  /** How many leading changes of a batch fit. */
  function Fitting(t: Transcript, changes: seq<Item>): (n: nat)
    ensures n <= |changes|
    decreases |changes|
  {
    if changes == [] then 0
    else
      var r := Apply(t, changes[0].change);
      if r.Refused? then 0 else 1 + Fitting(r.t, changes[1..])
  }

  function After(t: Transcript, changes: seq<Item>, n: nat): Transcript
    requires n <= Fitting(t, changes)
    decreases n
  {
    if n == 0 then t else After(Apply(t, changes[0].change).t, changes[1..], n - 1)
  }

  function OnChanges(s: Store, changes: seq<Item>): Store {
    if s.diverged || s.transcript.None? then s
    else
      var n := Fitting(s.transcript.value, changes);
      var cursor := if n == 0 then s.cursor else Some(changes[n - 1].cursor);
      if n < |changes| then s.(cursor := cursor, diverged := true)
      else s.(cursor := cursor, transcript := Some(After(s.transcript.value, changes, n)))
  }

  function OnEvent(s: Store, event: Event): Store {
    match event
    case ChatSnapshot(transcript, at, connected) => Store(Some(transcript), at, connected, false, false)
    case ChatResumed(cursor, connected) => s.(cursor := Some(cursor), connected := connected, stale := false)
    case ChatChanges(changes) => OnChanges(s, changes)
    case ChatConnection(connected) => s.(connected := connected)
    case Other => s
  }

  lemma {:induction false} AfterStep(t: Transcript, changes: seq<Item>, n: nat)
    requires n < |changes| && n <= Fitting(t, changes)
    ensures var r := Apply(After(t, changes, n), changes[n].change);
      && (r.Fits? <==> n < Fitting(t, changes))
      && (r.Fits? ==> After(t, changes, n + 1) == r.t)
    decreases n
  {
    hide Apply;
    if n > 0 {
      AfterStep(Apply(t, changes[0].change).t, changes[1..], n - 1);
    }
  }

  class ChatStore {
    var transcript: Option<Transcript>
    var cursor: Option<Cursor>
    var connected: bool
    var stale: bool
    var diverged: bool

    ghost function Now(): Store reads this { Store(transcript, cursor, connected, stale, diverged) }

    /** Starts from what the cache kept. */
    constructor (cached: Option<(Transcript, Option<Cursor>)>)
      ensures Now() == Store(if cached.Some? then Some(cached.value.0) else None,
                             if cached.Some? then cached.value.1 else None, false, true, false)
    {
      transcript := if cached.Some? then Some(cached.value.0) else None;
      cursor := if cached.Some? then cached.value.1 else None;
      connected, stale, diverged := false, true, false;
    }

    method Receive(event: Event)
      modifies this
      ensures Now() == OnEvent(old(Now()), event)
    {
      match event {
        case ChatSnapshot(found, at, live) =>
          transcript, cursor, connected, stale, diverged := Some(found), at, live, false, false;
        case ChatResumed(at, live) =>
          cursor, connected, stale := Some(at), live, false;
        case ChatChanges(changes) => ApplyBatch(changes);
        case ChatConnection(live) => connected := live;
        case Other =>
      }
    }

    method ApplyBatch(changes: seq<Item>)
      modifies this
      ensures Now() == OnChanges(old(Now()), changes)
    {
      if diverged || transcript.None? { return; }
      ghost var start := Now();
      var current := transcript.value;
      for i := 0 to |changes|
        invariant i <= Fitting(start.transcript.value, changes)
        invariant current == After(start.transcript.value, changes, i)
        invariant Now() == start.(cursor := if i == 0 then start.cursor else Some(changes[i - 1].cursor))
      {
        AfterStep(start.transcript.value, changes, i);
        var r := Apply(current, changes[i].change);
        if r.Refused? {
          diverged := true;
          return;
        }
        current := r.t;
        cursor := Some(changes[i].cursor);
      }
      transcript := Some(current);
    }
  }

  // ----- what the phone shows

  /** The computer's log: the transcript each cursor names, but for the order of its activities. */
  type Log = map<Cursor, Transcript>

  ghost predicate Names(log: Log, cursor: Cursor, t: Transcript) {
    cursor in log && D.Same(log[cursor], t)
  }

  /** A batch that follows what the store holds: a change that fits leads where the log says. One
      that does not fit is possible, and anything may come after it. */
  ghost predicate Follows(log: Log, t: Transcript, changes: seq<Item>)
    decreases |changes|
  {
    changes == [] ||
    (var r := Apply(t, changes[0].change);
     r.Fits? ==> Names(log, changes[0].cursor, r.t) && Follows(log, r.t, changes[1..]))
  }

  /** What the computer sends a store: snapshots are the log's, resuming only confirms the cursor
      the store asked with, and changes follow what it holds. */
  ghost predicate Consistent(log: Log, s: Store, event: Event) {
    match event
    case ChatSnapshot(transcript, at, _) => at.Some? ==> Names(log, at.value, transcript)
    case ChatResumed(cursor, _) => s.cursor == Some(cursor)
    case ChatChanges(changes) => !s.diverged && s.transcript.Some? ==> Follows(log, s.transcript.value, changes)
    case _ => true
  }

  /** While not diverged, what is shown is what the cursor names. */
  ghost predicate Shows(log: Log, s: Store) {
    !s.diverged && s.transcript.Some? && s.cursor.Some? ==> Names(log, s.cursor.value, s.transcript.value)
  }

  lemma {:induction false} FollowsTo(log: Log, t: Transcript, changes: seq<Item>, n: nat)
    requires Follows(log, t, changes) && 0 < n <= Fitting(t, changes)
    ensures Names(log, changes[n - 1].cursor, After(t, changes, n))
    decreases n
  {
    hide Apply;
    hide Names;
    if n > 1 { FollowsTo(log, Apply(t, changes[0].change).t, changes[1..], n - 1); }
  }

  lemma EventKeeps(log: Log, s: Store, event: Event)
    requires Shows(log, s) && Consistent(log, s, event)
    ensures Shows(log, OnEvent(s, event))
  {
    hide Apply;
    hide Names;
    if event.ChatChanges? && !s.diverged && s.transcript.Some? && event.changes != [] {
      var n := Fitting(s.transcript.value, event.changes);
      if n > 0 { FollowsTo(log, s.transcript.value, event.changes, n); }
    }
  }

  function Run(s: Store, events: seq<Event>): Store {
    if events == [] then s else OnEvent(Run(s, events[..|events| - 1]), events[|events| - 1])
  }

  /** Refinement over every run of events the computer may send: unless a change has not fitted,
      the phone shows exactly what the computer held at the phone's cursor. */
  lemma {:induction false} EveryRunShowsTheLog(log: Log, s: Store, events: seq<Event>)
    requires Shows(log, s)
    requires forall k :: 0 <= k < |events| ==> Consistent(log, Run(s, events[..k]), events[k])
    ensures Shows(log, Run(s, events))
  {
    if events != [] {
      var before := events[..|events| - 1];
      forall k | 0 <= k < |before| ensures Consistent(log, Run(s, before[..k]), before[k]) {
        assert before[..k] == events[..k];
      }
      EveryRunShowsTheLog(log, s, before);
      EventKeeps(log, Run(s, before), events[|events| - 1]);
    }
  }

  /** Whether the event says the chat's program is connected. */
  function Connects(event: Event): Option<bool> {
    match event
    case ChatSnapshot(_, _, connected) => Some(connected)
    case ChatResumed(_, connected) => Some(connected)
    case ChatConnection(connected) => Some(connected)
    case _ => None
  }

  function LastConnected(events: seq<Event>, start: bool): bool {
    if events == [] then start
    else
      var last := Connects(events[|events| - 1]);
      if last.Some? then last.value else LastConnected(events[..|events| - 1], start)
  }

  /** Over every run the store says connected as the last event that told did, and the chat counts as
      cached until a snapshot or a resumption came. */
  lemma {:induction false} EveryRunTells(s: Store, events: seq<Event>)
    ensures Run(s, events).connected == LastConnected(events, s.connected)
    ensures Run(s, events).stale <==> s.stale && forall e :: e in events ==> !e.ChatSnapshot? && !e.ChatResumed?
  {
    hide Apply;
    if events != [] {
      var n := |events| - 1;
      EveryRunTells(s, events[..n]);
      assert events == events[..n] + [events[n]];
    }
  }

  function Changes(items: seq<Item>): seq<Change> {
    seq(|items|, i requires 0 <= i < |items| => items[i].change)
  }

  lemma {:induction false} FittingIsFold(t: Transcript, items: seq<Item>, n: nat)
    requires n <= |items|
    ensures Fold(t, Changes(items)[..n]).Fits? <==> n <= Fitting(t, items)
    ensures n <= Fitting(t, items) ==> Fold(t, Changes(items)[..n]) == Fits(After(t, items, n))
  {
    hide Apply;
    if n == 0 {
      assert Changes(items)[..0] == [];
    } else {
      FittingIsFold(t, items, n - 1);
      assert Changes(items)[..n] == Changes(items)[..n - 1] + [items[n - 1].change];
      FoldSnoc(t, Changes(items)[..n - 1], items[n - 1].change);
      if n - 1 <= Fitting(t, items) { AfterStep(t, items, n - 1); }
    }
  }

  /** A batch is all or nothing for any store and any changes: the transcript becomes what the
      reducer makes of the whole batch, or stays and the store waits for a snapshot. */
  lemma BatchIsAtomic(s: Store, items: seq<Item>)
    requires !s.diverged && s.transcript.Some?
    ensures var r := Fold(s.transcript.value, Changes(items));
      var then_ := OnEvent(s, ChatChanges(items));
      if r.Fits? then then_.transcript == Some(r.t) && !then_.diverged
      else then_.transcript == s.transcript && then_.diverged
  {
    FittingIsFold(s.transcript.value, items, |items|);
    assert Changes(items)[..|items|] == Changes(items);
  }

  /** Once a change has not fitted, no change is applied until a snapshot. */
  lemma {:induction false} DivergedWaits(s: Store, events: seq<Event>)
    requires s.diverged && forall e :: e in events ==> !e.ChatSnapshot?
    ensures Run(s, events).diverged && Run(s, events).transcript == s.transcript
  {
    if events != [] {
      assert events[|events| - 1] in events;
      DivergedWaits(s, events[..|events| - 1]);
    }
  }

  /** Why `Shows` needs `!diverged`, exactly: after a batch fails, the kept transcript is the one
      its cursor names if and only if the changes that fitted made no difference. */
  lemma FailingBatchMovesCursor(log: Log, s: Store, items: seq<Item>)
    requires Shows(log, s) && !s.diverged && s.transcript.Some? && s.cursor.Some?
    requires Follows(log, s.transcript.value, items) && Fitting(s.transcript.value, items) < |items|
    ensures var n := Fitting(s.transcript.value, items);
      var then_ := OnEvent(s, ChatChanges(items));
      && then_.diverged && then_.cursor.Some? && then_.cursor.value in log && then_.transcript == s.transcript
      && then_.cursor == (if n == 0 then s.cursor else Some(items[n - 1].cursor))
      && (Names(log, then_.cursor.value, s.transcript.value)
          <==> D.Same(After(s.transcript.value, items, n), s.transcript.value))
  {
    hide Apply;
    var n := Fitting(s.transcript.value, items);
    if n > 0 { FollowsTo(log, s.transcript.value, items, n); }
  }

  /** An entry pushed twice: the second push does not fit, and the empty transcript is kept under
      the cursor of the first. */
  lemma PushedTwiceMovesCursor()
    ensures var e := Entry(1, Agent([]));
      var empty := D.Reading(D.PLAIN, [], false);
      var one := empty.(entries := [e]);
      var log: Log := map[Cursor(0, 0) := empty, Cursor(0, 1) := one];
      var s := Store(Some(empty), Some(Cursor(0, 0)), true, false, false);
      var items := [Item(Push(e), Cursor(0, 1)), Item(Push(e), Cursor(0, 2))];
      var then_ := OnEvent(s, ChatChanges(items));
      && Shows(log, s) && Follows(log, empty, items) && then_.diverged
      && then_.cursor == Some(Cursor(0, 1)) && then_.transcript == Some(empty)
      && !Names(log, Cursor(0, 1), empty)
  {
    var e := Entry(1, Agent([]));
    var empty := D.Reading(D.PLAIN, [], false);
    var one := empty.(entries := [e]);
    var items := [Item(Push(e), Cursor(0, 1)), Item(Push(e), Cursor(0, 2))];
    PushAfter(empty, e);
    assert Apply(empty, Push(e)) == Fits(one) by { assert empty.entries + [e] == [e]; }
    assert Apply(one, Push(e)).Refused?;
    assert items[1..] == [items[1]];
    assert Fitting(one, items[1..]) == 0;
    assert Fitting(empty, items) == 1;
  }
}
