/** The read-only server of one log (crates/sheprd-acp/src/mirror.rs, `Mirror`), over every
    run of inputs and readings with any send allowed to fail. */
module Mirrors {
  import opened Basics
  import opened Transcripts
  import opened Wire
  import D = Diff

  const MAX_CLIENTS: nat := 8

  datatype Input =
    | Attach(conn: ConnId)
    | Detach(conn: ConnId)
    | Command(conn: ConnId, id: nat)
    | UnsupportedCommand(conn: ConnId, id: nat)
    | Ignored

  /** `clients` maps a registered connection to all its outbox took; `closed` keeps the
      streams of connections no longer registered. */
  datatype State = State(
    clients: map<ConnId, Stream>, closed: set<Stream>, cursor: Cursor, pane: Option<Str>, transcript: Transcript)

  function Start(transcript: Transcript, pane: Option<Str>, epoch: nat): State {
    State(map[], {}, Cursor(epoch, 0), pane, transcript)
  }

  function SnapshotOf(s: State): ServerMessage { Snapshot(s.cursor, s.transcript) }

  function WelcomeOf(s: State): ServerMessage { Welcome(s.transcript.details.agent, s.pane, VERSION) }

  function Closing(s: State, conn: ConnId): set<Stream> {
    s.closed + if conn in s.clients then {s.clients[conn]} else {}
  }

  function Remove(s: State, conn: ConnId): State {
    s.(clients := s.clients - {conn}, closed := Closing(s, conn))
  }

  function Register(s: State, conn: ConnId, stream: Stream): State {
    s.(clients := s.clients[conn := stream], closed := Closing(s, conn))
  }

  function OnAttach(s: State, conn: ConnId, fate: Fate): State {
    if |s.clients| >= MAX_CLIENTS || !fate(conn, 0) then s
    else if !fate(conn, 1) then s.(closed := s.closed + {[WelcomeOf(s)]})
    else Register(s, conn, [WelcomeOf(s), SnapshotOf(s)])
  }

  function Extended(s: State, conn: ConnId, message: ServerMessage): State
    requires conn in s.clients
  {
    s.(clients := s.clients[conn := s.clients[conn] + [message]])
  }

  /** Every command is refused, whatever it asks. */
  function OnCommand(s: State, conn: ConnId, id: nat, fate: Fate): State {
    if conn !in s.clients then s
    else if !fate(conn, 0) then Remove(s, conn)
    else Extended(s, conn, Ack(id, Some(NotReady)))
  }

  function OnInput(s: State, input: Input, fate: Fate): State {
    match input
    case Attach(conn) => OnAttach(s, conn, fate)
    case Detach(conn) => Remove(s, conn)
    case Command(conn, id) => OnCommand(s, conn, id, fate)
    case UnsupportedCommand(conn, id) => OnCommand(s, conn, id, fate)
    case Ignored => s
  }

  function Broadcast(s: State, message: ServerMessage, fate: Fate, n: nat): State {
    s.(clients := map conn | conn in s.clients && fate(conn, n) :: s.clients[conn] + [message],
       closed := s.closed + set conn | conn in s.clients && !fate(conn, n) :: s.clients[conn])
  }

  function SendOne(s: State, change: Change, fate: Fate, n: nat): State {
    var bumped := s.(cursor := s.cursor.Next());
    Broadcast(bumped, Changed(change, bumped.cursor), fate, n)
  }

  /** The first `n` changes numbered and sent. */
  function SendChanges(s: State, changes: seq<Change>, n: nat, fate: Fate): State
    requires n <= |changes|
  {
    if n == 0 then s else SendOne(SendChanges(s, changes, n - 1, fate), changes[n - 1], fate, n - 1)
  }

  function OnReading(s: State, next: Transcript, epoch: nat, fate: Fate): State {
    if next == s.transcript then s
    else
      var changes := D.Changes(s.transcript, next);
      if changes.None? then
        var moved := s.(cursor := Cursor(epoch, 0), transcript := next);
        Broadcast(moved, SnapshotOf(moved), fate, 0)
      else SendChanges(s.(transcript := next), changes.value, |changes.value|, fate)
  }

  // ----- the object itself

  class Mirror {
    var clients: map<ConnId, Stream>
    var cursor: Cursor
    var pane: Option<Str>
    var transcript: Transcript
    ghost var closed: set<Stream>

    ghost function Now(): State reads this { State(clients, closed, cursor, pane, transcript) }

    constructor (transcript: Transcript, pane: Option<Str>, epoch: nat)
      ensures Now() == Start(transcript, pane, epoch)
    {
      clients, cursor, this.pane, this.transcript, closed := map[], Cursor(epoch, 0), pane, transcript, {};
    }

    method Receive(input: Input, fate: Fate)
      modifies this
      ensures Now() == OnInput(old(Now()), input, fate)
    {
      match input {
        case Attach(conn) =>
          if |clients| >= MAX_CLIENTS { return; }
          var welcome := Welcome(transcript.details.agent, pane, VERSION);
          if fate(conn, 0) {
            if fate(conn, 1) {
              closed := if conn in clients then closed + {clients[conn]} else closed;
              clients := clients[conn := [welcome, Snapshot(cursor, transcript)]];
            } else {
              closed := closed + {[welcome]};
            }
          }
        case Detach(conn) => Drop(conn);
        case Command(conn, id) => Refuse(conn, id, fate);
        case UnsupportedCommand(conn, id) => Refuse(conn, id, fate);
        case Ignored =>
      }
    }

    method Drop(conn: ConnId)
      modifies this
      ensures Now() == Remove(old(Now()), conn)
    {
      closed := if conn in clients then closed + {clients[conn]} else closed;
      clients := clients - {conn};
    }

    method Refuse(conn: ConnId, id: nat, fate: Fate)
      modifies this
      ensures Now() == OnCommand(old(Now()), conn, id, fate)
    {
      if conn in clients {
        if fate(conn, 0) {
          clients := clients[conn := clients[conn] + [Ack(id, Some(NotReady))]];
        } else {
          Drop(conn);
        }
      }
    }

    method Send(message: ServerMessage, fate: Fate, n: nat)
      modifies this`clients, this`closed
      ensures Now() == Broadcast(old(Now()), message, fate, n)
    {
      closed := closed + set conn | conn in clients && !fate(conn, n) :: clients[conn];
      clients := map conn | conn in clients && fate(conn, n) :: clients[conn] + [message];
    }

    method Update(next: Transcript, epoch: nat, fate: Fate)
      modifies this
      ensures Now() == OnReading(old(Now()), next, epoch, fate)
    {
      if next == transcript { return; }
      var changes := D.Compute(transcript, next);
      if changes.None? {
        cursor, transcript := Cursor(epoch, 0), next;
        Send(Snapshot(cursor, transcript), fate, 0);
        return;
      }
      transcript := next;
      ghost var before := Now();
      for i := 0 to |changes.value|
        invariant Now() == SendChanges(before, changes.value, i, fate)
      {
        cursor := cursor.Next();
        Send(Changed(changes.value[i], cursor), fate, i);
      }
    }
  }

  // ----- what every run keeps

  /** Every message of the stream was one the client could use, and it never went back. */
  ghost predicate Faithful(stream: Stream, log: map<Cursor, Transcript>) {
    Forward(stream) && forall k :: 0 <= k < |stream| ==> Usable(stream, k, log)
  }

  /** After message `k` the client holds the transcript its cursor names, and a change's
      cursor follows the one before in its epoch, so only a snapshot starts an epoch. */
  ghost predicate Usable(stream: Stream, k: nat, log: map<Cursor, Transcript>)
    requires k < |stream|
  {
    var before := Replay(Nothing, stream[..k]);
    && (stream[k].Changed? ==> before.Holding? && stream[k].cursor == before.cursor.Next())
    && Named(See(before, stream[k]), log)
  }

  /** The view is none yet, or the transcript `log` gives its cursor. */
  ghost predicate Named(view: View, log: map<Cursor, Transcript>) {
    match view
    case Nothing => true
    case Holding(cursor, transcript) =>
      cursor in log && WellFormed(transcript) && D.Same(transcript, log[cursor])
    case Broken => false
  }

  /** The client is where the server is. */
  ghost predicate Caught(stream: Stream, cursor: Cursor, transcript: Transcript) {
    var view := Replay(Nothing, stream);
    view.Holding? && view.cursor == cursor && WellFormed(view.transcript) && D.Same(view.transcript, transcript)
  }

  ghost predicate Clients(s: State, transcript: Transcript, log: map<Cursor, Transcript>) {
    && |s.clients| <= MAX_CLIENTS
    && (forall conn :: conn in s.clients ==>
          Faithful(s.clients[conn], log) && Caught(s.clients[conn], s.cursor, transcript))
    && (forall stream :: stream in s.closed ==> Faithful(stream, log))
  }

  ghost predicate Logged(s: State, transcript: Transcript, log: map<Cursor, Transcript>) {
    && WellFormed(transcript)
    && s.cursor in log && D.Same(log[s.cursor], transcript)
    && forall c :: c in log && c.epoch == s.cursor.epoch ==> c.seq_ <= s.cursor.seq_
  }

  /** Between steps: `log` gives every cursor ever sent one transcript. */
  ghost predicate Inv(s: State, log: map<Cursor, Transcript>) {
    Logged(s, s.transcript, log) && Clients(s, s.transcript, log)
  }

  /** What is new in `grown` is of the epoch `e`. */
  ghost predicate Within(grown: map<Cursor, Transcript>, log: map<Cursor, Transcript>, e: nat) {
    forall c :: c in grown ==> c in log || c.epoch == e
  }

  ghost predicate Grows(a: map<Cursor, Transcript>, b: map<Cursor, Transcript>) {
    forall c :: c in a ==> c in b && b[c] == a[c]
  }

  lemma FaithfulGrows(stream: Stream, a: map<Cursor, Transcript>, b: map<Cursor, Transcript>)
    requires Faithful(stream, a) && Grows(a, b)
    ensures Faithful(stream, b)
  {
    forall k | 0 <= k < |stream| ensures Usable(stream, k, b) {
      assert Usable(stream, k, a);
    }
  }

  lemma Extend(stream: Stream, message: ServerMessage, log: map<Cursor, Transcript>)
    requires Faithful(stream, log)
    requires Named(See(Replay(Nothing, stream), message), log)
    requires message.Changed? ==>
      Replay(Nothing, stream).Holding? && message.cursor == Replay(Nothing, stream).cursor.Next()
    requires message.Snapshot? ==> Ahead(stream, Holding(message.cursor, message.transcript))
    ensures Faithful(stream + [message], log)
    ensures Replay(Nothing, stream + [message]) == See(Replay(Nothing, stream), message)
  {
    hide Forward;
    hide Ahead;
    if !message.Snapshot? { AheadUnlessSnapshot(stream, message); }
    ForwardMore(stream, message);
    ReplaySnoc(Nothing, stream, message);
    var longer := stream + [message];
    forall k | 0 <= k < |longer| ensures Usable(longer, k, log) {
      assert longer[..k] == stream[..k];
      if k < |stream| {
        assert Usable(stream, k, log);
      } else {
        assert stream[..k] == stream;
      }
    }
  }

  lemma MapShrinks<K, V, W>(a: map<K, V>, b: map<K, W>)
    requires b.Keys <= a.Keys
    ensures |b| <= |a|
  {
    D.SubsetSize(b.Keys, a.Keys);
  }

  lemma PutSize<K, V>(m: map<K, V>, k: K, v: V)
    ensures |m[k := v]| <= |m| + 1
  {
    assert m[k := v].Keys == m.Keys + {k};
  }

  lemma FaithfulNil(log: map<Cursor, Transcript>)
    ensures Faithful([], log) && Replay(Nothing, []) == Nothing
  {
    ForwardNil();
  }

  /** A stream that holds nothing yet is behind everything. */
  lemma NothingIsBehind(message: ServerMessage, view: View)
    requires message.Welcome?
    ensures Ahead([message], view)
  {
    HeldSnoc([], message);
    assert [] + [message] == [message];
    forall a | 0 <= a <= |[message]| ensures AheadOf([message], a, view) {}
  }

  lemma {:induction false} NamedAt(stream: Stream, log: map<Cursor, Transcript>, m: nat)
    requires Faithful(stream, log) && m <= |stream|
    ensures Named(HeldAt(stream, m), log)
  {
    if m > 0 {
      assert Usable(stream, m - 1, log);
      assert stream[..m] == stream[..m - 1] + [stream[m - 1]];
      ReplaySnoc(Nothing, stream[..m - 1], stream[m - 1]);
    }
  }

  lemma NewEpochIsAhead(stream: Stream, log: map<Cursor, Transcript>, view: View)
    requires Faithful(stream, log) && view.Holding? && forall c :: c in log ==> c.epoch != view.cursor.epoch
    ensures Ahead(stream, view)
  {
    forall a | 0 <= a <= |stream| ensures AheadOf(stream, a, view) { NamedAt(stream, log, a); }
  }

  lemma RemoveKeeps(s: State, conn: ConnId, log: map<Cursor, Transcript>)
    requires Inv(s, log)
    ensures Inv(Remove(s, conn), log)
  {
    hide Faithful;
    hide Caught;
    MapShrinks(s.clients, s.clients - {conn});
  }

  lemma RegisterKeeps(s: State, conn: ConnId, stream: Stream, log: map<Cursor, Transcript>)
    requires Inv(s, log) && Faithful(stream, log) && Caught(stream, s.cursor, s.transcript)
    requires |s.clients| < MAX_CLIENTS
    ensures Inv(Register(s, conn, stream), log)
  {
    hide Faithful;
    hide Caught;
    hide WellFormed;
    PutSize(s.clients, conn, stream);
  }

  lemma ExtendedKeeps(s: State, conn: ConnId, message: ServerMessage, log: map<Cursor, Transcript>)
    requires Inv(s, log) && conn in s.clients && message.Ack?
    ensures Inv(Extended(s, conn, message), log)
  {
    var stream := s.clients[conn];
    Extend(stream, message, log);
    var clients := s.clients[conn := stream + [message]];
    assert clients.Keys == s.clients.Keys;
    MapShrinks(s.clients, clients);
  }

  /** A client is welcomed with exactly what the server holds. */
  lemma WelcomeCatches(s: State, log: map<Cursor, Transcript>)
    requires Inv(s, log)
    ensures Faithful([WelcomeOf(s)], log)
    ensures Faithful([WelcomeOf(s), SnapshotOf(s)], log)
    ensures Caught([WelcomeOf(s), SnapshotOf(s)], s.cursor, s.transcript)
  {
    hide Faithful;
    hide Clients;
    hide WellFormed;
    hide Replay;
    hide Ahead;
    var w, snap := WelcomeOf(s), SnapshotOf(s);
    NothingIsBehind(w, Holding(s.cursor, s.transcript));
    FaithfulNil(log);
    Extend([], w, log);
    assert [] + [w] == [w];
    Extend([w], snap, log);
    assert [w] + [snap] == [w, snap];
  }

  lemma OnAttachKeeps(s: State, conn: ConnId, fate: Fate, log: map<Cursor, Transcript>)
    requires Inv(s, log)
    ensures Inv(OnAttach(s, conn, fate), log)
  {
    hide Faithful;
    hide Caught;
    WelcomeCatches(s, log);
    if |s.clients| < MAX_CLIENTS { RegisterKeeps(s, conn, [WelcomeOf(s), SnapshotOf(s)], log); }
  }

  lemma OnInputKeeps(s: State, input: Input, fate: Fate, log: map<Cursor, Transcript>)
    requires Inv(s, log)
    ensures Inv(OnInput(s, input, fate), log)
  {
    hide Inv;
    if input.Attach? {
      OnAttachKeeps(s, input.conn, fate, log);
    } else if !input.Ignored? {
      RemoveKeeps(s, input.conn, log);
      if !input.Detach? && input.conn in s.clients {
        ExtendedKeeps(s, input.conn, Ack(input.id, Some(NotReady)), log);
      }
    }
  }

  /** The change fits every transcript equal to `was`, and makes it equal to `is_`. */
  ghost predicate Usually(was: Transcript, change: Change, is_: Transcript) {
    forall t {:trigger D.Same(t, was)} :: WellFormed(t) && D.Same(t, was) ==>
      Apply(t, change).Fits? && WellFormed(Apply(t, change).t) && D.Same(Apply(t, change).t, is_)
  }

  /** A broadcast every client can use keeps the kept clients with the server, which now
      holds `after`. */
  lemma BroadcastKeeps(s: State, message: ServerMessage, fate: Fate, n: nat,
                       before: Transcript, after: Transcript, cursor: Cursor, log: map<Cursor, Transcript>)
    requires Clients(s.(cursor := cursor), before, log)
    requires Logged(s, after, log)
    requires message == Snapshot(s.cursor, after)
      || (message.Changed? && message.cursor == s.cursor == cursor.Next() && Usually(before, message.change, after))
    requires message.Snapshot? ==> forall conn :: conn in s.clients ==> Ahead(s.clients[conn], Holding(s.cursor, after))
    ensures Clients(Broadcast(s, message, fate, n), after, log)
  {
    hide Faithful;
    hide Caught;
    hide Usually;
    hide Ahead;
    hide Named;
    var then_ := Broadcast(s, message, fate, n);
    forall conn | conn in then_.clients
      ensures Faithful(then_.clients[conn], log) && Caught(then_.clients[conn], s.cursor, after)
    {
      OneKeeps(s.clients[conn], message, before, after, cursor, s.cursor, log);
    }
    MapShrinks(s.clients, then_.clients);
  }

  lemma OneKeeps(stream: Stream, message: ServerMessage, before: Transcript, after: Transcript, cursor: Cursor,
                 next: Cursor, log: map<Cursor, Transcript>)
    requires Faithful(stream, log) && Caught(stream, cursor, before)
    requires WellFormed(after) && next in log && D.Same(log[next], after)
    requires message == Snapshot(next, after)
      || (message.Changed? && message.cursor == next == cursor.Next() && Usually(before, message.change, after))
    requires message.Snapshot? ==> Ahead(stream, Holding(next, after))
    ensures Faithful(stream + [message], log) && Caught(stream + [message], next, after)
  {
    hide Faithful;
    hide WellFormed;
    hide Ahead;
    Extend(stream, message, log);
  }

  lemma SameCalls(t: Transcript, u: Transcript)
    requires D.Same(t, u)
    ensures D.Calls(t.activities) == D.Calls(u.activities)
  {}

  /** One change of a diff acts alike on transcripts equal up to activity order. */
  lemma StepSame(t: Transcript, u: Transcript, change: Change, all: seq<Activity>)
    requires WellFormed(t) && WellFormed(u) && D.Same(t, u) && ActivitiesOk(all)
    requires Apply(u, change).Fits?
    requires change.SetActivity? ==> change.activity in all && D.Calls(u.activities) <= D.Calls(all)
    ensures Apply(t, change).Fits? && WellFormed(Apply(t, change).t)
    ensures D.Same(Apply(t, change).t, Apply(u, change).t)
  {
    if change.SetActivity? {
      var x := change.activity;
      ApplyActivity(t, x);
      ApplyActivity(u, x);
      SameCalls(t, u);
      assert x.callId in D.Calls(all);
      if x.callId !in D.Calls(u.activities) {
        D.Room(u.activities, all, x.callId);
        D.Room(t.activities, all, x.callId);
      }
      D.Upserted(t, x);
      D.Upserted(u, x);
    }
    if Apply(t, change).Fits? { ApplyKeepsWellFormed(t, change); }
  }

  /** Every activity the changes set is one of `all`. */
  ghost predicate Sets(changes: seq<Change>, all: seq<Activity>) {
    forall c :: c in changes && c.SetActivity? ==> c.activity in all
  }

  lemma {:induction false} ReportedSets(previous: Transcript, some: seq<Activity>, all: seq<Activity>)
    requires forall x :: x in some ==> x in all
    ensures Sets(D.Reported(previous, some), all)
  {
    if some != [] { ReportedSets(previous, some[..|some| - 1], all); }
  }

  /** What a diff's prefix leaves: every prefix fits, stays well formed, and knows only calls of
      `all`. */
  lemma {:induction false} PrefixKnown(t: Transcript, changes: seq<Change>, n: nat, all: seq<Activity>)
    requires n <= |changes| && Fold(t, changes).Fits? && WellFormed(t)
    requires Sets(changes, all) && D.Calls(t.activities) <= D.Calls(all)
    ensures Fold(t, changes[..n]).Fits? && WellFormed(Fold(t, changes[..n]).t)
    ensures D.Calls(Fold(t, changes[..n]).t.activities) <= D.Calls(all)
  {
    hide Apply;
    hide WellFormed;
    SplitJoin(changes, n);
    FoldConcat(t, changes[..n], changes[n..]);
    FoldKeepsWellFormed(t, changes[..n]);
    if n == 0 {
      assert changes[..0] == [];
    } else {
      hide Fold;
      PrefixKnown(t, changes, n - 1, all);
      PrefixSnoc(t, changes, n - 1);
      CallsGrow(Fold(t, changes[..n - 1]).t, changes[n - 1]);
      SetIsKnown(changes, n - 1, all);
      hide Sets;
      hide D.Calls;
    }
  }

  lemma PrefixSnoc(t: Transcript, changes: seq<Change>, n: nat)
    requires n < |changes| && Fold(t, changes[..n]).Fits?
    ensures Fold(t, changes[..n + 1]) == Apply(Fold(t, changes[..n]).t, changes[n])
  {
    hide Apply;
    assert changes[..n + 1] == changes[..n] + [changes[n]];
    FoldSnoc(t, changes[..n], changes[n]);
  }

  lemma SetIsKnown(changes: seq<Change>, n: nat, all: seq<Activity>)
    requires n < |changes| && Sets(changes, all)
    ensures changes[n].SetActivity? ==> changes[n].activity.callId in D.Calls(all)
  {
    assert changes[n] in changes;
  }

  lemma CallsGrow(t: Transcript, change: Change)
    requires Apply(t, change).Fits?
    ensures D.Calls(Apply(t, change).t.activities)
         <= D.Calls(t.activities) + if change.SetActivity? then {change.activity.callId} else {}
  {
    if change.SetActivity? {
      ApplyActivity(t, change.activity);
      forall x | x in Record(t, change.activity).t.activities ensures x == change.activity || x in t.activities {}
    }
  }

  ghost function StateAt(previous: Transcript, changes: seq<Change>, n: nat): Transcript
    requires n <= |changes|
  {
    var r := Fold(previous, changes[..n]);
    if r.Fits? then r.t else previous
  }

  ghost function States(previous: Transcript, changes: seq<Change>): seq<Transcript> {
    seq(|changes| + 1, n requires 0 <= n <= |changes| => StateAt(previous, changes, n))
  }

  lemma ClientsGrow(s: State, transcript: Transcript, a: map<Cursor, Transcript>, b: map<Cursor, Transcript>)
    requires Clients(s, transcript, a) && Grows(a, b)
    ensures Clients(s, transcript, b)
  {
    forall conn | conn in s.clients ensures Faithful(s.clients[conn], b) { FaithfulGrows(s.clients[conn], a, b); }
    forall stream | stream in s.closed ensures Faithful(stream, b) { FaithfulGrows(stream, a, b); }
  }

  ghost predicate Diffs(previous: Transcript, changes: seq<Change>, all: seq<Activity>) {
    && WellFormed(previous) && Fold(previous, changes).Fits?
    && Sets(changes, all) && ActivitiesOk(all) && D.Calls(previous.activities) <= D.Calls(all)
  }

  lemma ChangeUsable(previous: Transcript, changes: seq<Change>, n: nat, all: seq<Activity>, t: Transcript)
    requires Diffs(previous, changes, all) && n < |changes|
    requires WellFormed(t) && D.Same(t, StateAt(previous, changes, n))
    ensures Apply(t, changes[n]).Fits? && WellFormed(Apply(t, changes[n]).t)
    ensures D.Same(Apply(t, changes[n]).t, StateAt(previous, changes, n + 1))
  {
    hide Apply;
    hide WellFormed;
    PrefixKnown(previous, changes, n, all);
    PrefixKnown(previous, changes, n + 1, all);
    assert changes[..n + 1] == changes[..n] + [changes[n]];
    FoldSnoc(previous, changes[..n], changes[n]);
    StepSame(t, StateAt(previous, changes, n), changes[n], all);
  }

  lemma ChangesUsual(previous: Transcript, changes: seq<Change>, n: nat, all: seq<Activity>)
    requires Diffs(previous, changes, all) && n < |changes|
    ensures Usually(StateAt(previous, changes, n), changes[n], StateAt(previous, changes, n + 1))
    ensures WellFormed(StateAt(previous, changes, n + 1))
  {
    PrefixKnown(previous, changes, n + 1, all);
    var was, is_ := StateAt(previous, changes, n), StateAt(previous, changes, n + 1);
    forall t | WellFormed(t) && D.Same(t, was)
      ensures Apply(t, changes[n]).Fits? && WellFormed(Apply(t, changes[n]).t)
           && D.Same(Apply(t, changes[n]).t, is_)
    {
      ChangeUsable(previous, changes, n, all, t);
    }
  }

  lemma SendOneKeeps(before: State, change: Change, fate: Fate, n: nat,
                     was: Transcript, is_: Transcript, had: map<Cursor, Transcript>)
    requires Logged(before, was, had) && Clients(before, was, had)
    requires WellFormed(is_) && Usually(was, change, is_)
    ensures var then_, grown := SendOne(before, change, fate, n), had[before.cursor.Next() := is_];
      Logged(then_, is_, grown) && Clients(then_, is_, grown) && Grows(had, grown)
  {
    var bumped := before.(cursor := before.cursor.Next());
    var grown := had[bumped.cursor := is_];
    assert bumped.cursor !in had;
    ClientsGrow(before, was, had, grown);
    assert bumped.(cursor := before.cursor) == before;
    BroadcastKeeps(bumped, Changed(change, bumped.cursor), fate, n, was, is_, before.cursor, grown);
  }

  lemma StartAt(previous: Transcript, changes: seq<Change>)
    ensures StateAt(previous, changes, 0) == previous
  {
    assert changes[..0] == [];
  }

  /** After `n` changes the server's cursor has moved by `n`, and clients hold what they made. */
  ghost predicate Sent(s: State, then_: State, n: nat, is_: Transcript,
                       log: map<Cursor, Transcript>, grown: map<Cursor, Transcript>) {
    && then_.cursor == Cursor(s.cursor.epoch, s.cursor.seq_ + n) && then_.transcript == s.transcript
    && Logged(then_, is_, grown) && Clients(then_, is_, grown)
    && Grows(log, grown) && Within(grown, log, s.cursor.epoch)
  }

  ghost predicate Linked(states: seq<Transcript>, changes: seq<Change>, k: nat)
    requires k < |changes| && |states| == |changes| + 1
  {
    Usually(states[k], changes[k], states[k + 1]) && WellFormed(states[k + 1])
  }

  lemma SendChangesStep(s: State, changes: seq<Change>, n: nat, fate: Fate)
    requires n < |changes|
    ensures SendChanges(s, changes, n + 1, fate) == SendOne(SendChanges(s, changes, n, fate), changes[n], fate, n)
  {}

  lemma SendNext(s: State, states: seq<Transcript>, changes: seq<Change>, n: nat, before: State, fate: Fate,
                 log: map<Cursor, Transcript>, had: map<Cursor, Transcript>)
    returns (after: State, grown: map<Cursor, Transcript>)
    requires n < |changes| && |states| == |changes| + 1 && Linked(states, changes, n)
    requires Sent(s, before, n, states[n], log, had)
    ensures after == SendOne(before, changes[n], fate, n)
    ensures Sent(s, after, n + 1, states[n + 1], log, grown)
  {
    after := SendOne(before, changes[n], fate, n);
    grown := had[before.cursor.Next() := states[n + 1]];
    SendOneKeeps(before, changes[n], fate, n, states[n], states[n + 1], had);
  }

  lemma {:induction false} SendChangesKeeps(s: State, states: seq<Transcript>, changes: seq<Change>, n: nat,
                                            fate: Fate, log: map<Cursor, Transcript>)
    returns (after: State, grown: map<Cursor, Transcript>)
    requires n <= |changes| && |states| == |changes| + 1
    requires forall k :: 0 <= k < |changes| ==> Linked(states, changes, k)
    requires Sent(s, s, 0, states[0], log, log)
    ensures after == SendChanges(s, changes, n, fate)
    ensures Sent(s, after, n, states[n], log, grown)
  {
    hide Sent;
    if n == 0 {
      after, grown := s, log;
    } else {
      var before, had := SendChangesKeeps(s, states, changes, n - 1, fate, log);
      after, grown := SendNext(s, states, changes, n - 1, before, fate, log, had);
      SendChangesStep(s, changes, n - 1, fate);
    }
  }

  /** What the source's readings satisfy: well formed, agreeing with the last reading on the
      fields no change carries, and truncated when they dropped entries. */
  ghost predicate Lawful(s: State, next: Transcript) {
    && WellFormed(next)
    && (D.Changes(s.transcript, next).Some? ==>
          D.Fixed(s.transcript, next) && (D.Dropped(s.transcript, next) ==> next.truncated))
  }

  lemma OnlyReportedSet(previous: Transcript, next: Transcript)
    requires D.Changes(previous, next).Some?
    ensures forall c :: c in D.Changes(previous, next).value && c.SetActivity? ==>
      c in D.Reported(previous, next.activities)
  {}

  lemma DiffsOf(previous: Transcript, next: Transcript)
    requires WellFormed(previous) && WellFormed(next) && D.Changes(previous, next).Some?
    ensures Diffs(previous, D.Changes(previous, next).value, next.activities)
  {
    D.DiffApplies(previous, previous, next);
    D.NoneGone(previous, next);
    ReportedSets(previous, next.activities, next.activities);
    OnlyReportedSet(previous, next);
  }

  lemma SnapshotKeeps(s: State, next: Transcript, epoch: nat, fate: Fate, log: map<Cursor, Transcript>)
    requires Inv(s, log) && WellFormed(next) && forall c :: c in log ==> c.epoch != epoch
    ensures var moved := s.(cursor := Cursor(epoch, 0), transcript := next);
      Inv(Broadcast(moved, SnapshotOf(moved), fate, 0), log[Cursor(epoch, 0) := next])
  {
    hide Faithful;
    hide Ahead;
    hide WellFormed;
    forall conn | conn in s.clients ensures Ahead(s.clients[conn], Holding(Cursor(epoch, 0), next)) {
      NewEpochIsAhead(s.clients[conn], log, Holding(Cursor(epoch, 0), next));
    }
    var moved := s.(cursor := Cursor(epoch, 0), transcript := next);
    var grown := log[Cursor(epoch, 0) := next];
    ClientsGrow(s, s.transcript, log, grown);
    assert Clients(moved.(cursor := s.cursor), s.transcript, grown);
    BroadcastKeeps(moved, SnapshotOf(moved), fate, 0, s.transcript, next, s.cursor, grown);
  }

  lemma AllLinked(previous: Transcript, next: Transcript)
    requires WellFormed(previous) && WellFormed(next) && D.Changes(previous, next).Some?
    requires D.Fixed(previous, next) && (D.Dropped(previous, next) ==> next.truncated)
    ensures var changes := D.Changes(previous, next).value;
      var states := States(previous, changes);
      && states[0] == previous && D.Same(states[|changes|], next)
      && forall k :: 0 <= k < |changes| ==> Linked(states, changes, k)
  {
    var changes := D.Changes(previous, next).value;
    var states := States(previous, changes);
    DiffsOf(previous, next);
    StartAt(previous, changes);
    forall k | 0 <= k < |changes| ensures Linked(states, changes, k) {
      ChangesUsual(previous, changes, k, next.activities);
    }
    assert changes[..|changes|] == changes;
    D.DiffSound(previous, previous, next);
  }

  lemma ChangesKeep(s: State, next: Transcript, fate: Fate, log: map<Cursor, Transcript>)
    returns (grown: map<Cursor, Transcript>)
    requires Inv(s, log) && Lawful(s, next) && D.Changes(s.transcript, next).Some?
    ensures var changes := D.Changes(s.transcript, next).value;
      && Inv(SendChanges(s.(transcript := next), changes, |changes|, fate), grown)
      && Within(grown, log, s.cursor.epoch) && Grows(log, grown)
  {
    hide Linked;
    hide WellFormed;
    hide D.Changes;
    var changes := D.Changes(s.transcript, next).value;
    var moved, n, states := s.(transcript := next), |changes|, States(s.transcript, changes);
    AllLinked(s.transcript, next);
    var after;
    after, grown := SendChangesKeeps(moved, states, changes, n, fate, log);
    Landed(after, states[n], grown);
  }

  lemma OnReadingKeeps(s: State, next: Transcript, epoch: nat, fate: Fate, log: map<Cursor, Transcript>)
    returns (grown: map<Cursor, Transcript>)
    requires Inv(s, log) && Lawful(s, next) && forall c :: c in log ==> c.epoch != epoch
    ensures Inv(OnReading(s, next, epoch, fate), grown) && Grows(log, grown)
    ensures Within(grown, log, epoch) || Within(grown, log, s.cursor.epoch)
  {
    if next == s.transcript {
      grown := log;
    } else if D.Changes(s.transcript, next).None? {
      grown := log[Cursor(epoch, 0) := next];
      SnapshotKeeps(s, next, epoch, fate, log);
    } else {
      grown := ChangesKeep(s, next, fate, log);
    }
  }

  /** Being with a transcript is being with any equal one. */
  lemma Landed(s: State, held: Transcript, log: map<Cursor, Transcript>)
    requires Logged(s, held, log) && Clients(s, held, log) && D.Same(held, s.transcript) && WellFormed(s.transcript)
    ensures Inv(s, log)
  {}

  datatype Event = Take(input: Input, fate: Fate) | Reread(next: Transcript, epoch: nat, fate: Fate)

  function Step(s: State, event: Event): State {
    match event
    case Take(input, fate) => OnInput(s, input, fate)
    case Reread(next, epoch, fate) => OnReading(s, next, epoch, fate)
  }

  function Run(s: State, events: seq<Event>): State {
    if events == [] then s else Step(Run(s, events[..|events| - 1]), events[|events| - 1])
  }

  ghost function Used(epoch: nat, events: seq<Event>): set<nat> {
    {epoch} + set e | e in events && e.Reread? :: e.epoch
  }

  /** Every reading was lawful when it came, and every epoch drawn was new. */
  ghost predicate LawfulRun(s: State, events: seq<Event>) {
    forall k :: 0 <= k < |events| && events[k].Reread? ==>
      Lawful(Run(s, events[..k]), events[k].next) && events[k].epoch !in Used(s.cursor.epoch, events[..k])
  }

  lemma {:induction false} RunKeeps(transcript: Transcript, pane: Option<Str>, epoch: nat, events: seq<Event>)
    returns (log: map<Cursor, Transcript>)
    requires WellFormed(transcript) && LawfulRun(Start(transcript, pane, epoch), events)
    ensures Inv(Run(Start(transcript, pane, epoch), events), log)
    ensures forall c :: c in log ==> c.epoch in Used(epoch, events)
    ensures forall k :: 0 <= k <= |events| ==> Recorded(Start(transcript, pane, epoch), events, k, log)
  {
    hide Step;
    hide Lawful;
    hide LawfulRun;
    hide Inv;
    hide Recorded;
    var s := Start(transcript, pane, epoch);
    if events == [] {
      log := map[s.cursor := transcript];
      StartKeeps(transcript, pane, epoch, log);
    } else {
      var n := |events| - 1;
      var before := events[..n];
      LawfulBefore(s, events);
      var had := RunKeeps(transcript, pane, epoch, before);
      assert Used(epoch, before) <= Used(epoch, events);
      log := StepKeeps(Run(s, before), events[n], had);
      StillRecorded(s, events, before, had, log);
    }
  }

  lemma StartKeeps(transcript: Transcript, pane: Option<Str>, epoch: nat, log: map<Cursor, Transcript>)
    requires WellFormed(transcript) && log == map[Start(transcript, pane, epoch).cursor := transcript]
    ensures Inv(Start(transcript, pane, epoch), log) && Recorded(Start(transcript, pane, epoch), [], 0, log)
  {
    assert Run(Start(transcript, pane, epoch), [][..0]) == Start(transcript, pane, epoch);
  }

  lemma StepKeeps(s: State, event: Event, log: map<Cursor, Transcript>) returns (grown: map<Cursor, Transcript>)
    requires Inv(s, log)
    requires event.Reread? ==> Lawful(s, event.next) && forall c :: c in log ==> c.epoch != event.epoch
    ensures Inv(Step(s, event), grown) && Grows(log, grown)
    ensures forall c :: c in grown ==>
              c in log || (event.Reread? && c.epoch == event.epoch) || c.epoch == s.cursor.epoch
    ensures s.cursor in log
  {
    assert s.cursor in log;
    hide Inv;
    hide Lawful;
    match event
    case Take(input, fate) =>
      OnInputKeeps(s, input, fate, log);
      grown := log;
    case Reread(next, epoch, fate) =>
      grown := OnReadingKeeps(s, next, epoch, fate, log);
  }

  /** After `k` events the server held what `log` gives its cursor. */
  ghost predicate Recorded(s: State, events: seq<Event>, k: nat, log: map<Cursor, Transcript>)
    requires k <= |events|
  {
    var then_ := Run(s, events[..k]);
    then_.cursor in log && D.Same(log[then_.cursor], then_.transcript)
  }

  lemma StillRecorded(s: State, events: seq<Event>, before: seq<Event>,
                      had: map<Cursor, Transcript>, log: map<Cursor, Transcript>)
    requires events != [] && before == events[..|events| - 1] && Grows(had, log) && Inv(Run(s, events), log)
    requires forall k :: 0 <= k <= |before| ==> Recorded(s, before, k, had)
    ensures forall k :: 0 <= k <= |events| ==> Recorded(s, events, k, log)
  {
    hide Clients;
    hide WellFormed;
    forall k | 0 <= k <= |events| ensures Recorded(s, events, k, log) {
      if k < |events| {
        assert Recorded(s, before, k, had) && before[..k] == events[..k];
      } else {
        assert events[..k] == events;
      }
    }
  }

  lemma LawfulBefore(s: State, events: seq<Event>)
    requires LawfulRun(s, events) && events != []
    ensures LawfulRun(s, events[..|events| - 1])
    ensures var n := |events| - 1;
      events[n].Reread? ==>
        Lawful(Run(s, events[..n]), events[n].next) && events[n].epoch !in Used(s.cursor.epoch, events[..n])
  {
    var before := events[..|events| - 1];
    forall k | 0 <= k < |before| && before[k].Reread?
      ensures Lawful(Run(s, before[..k]), before[k].next) && before[k].epoch !in Used(s.cursor.epoch, before[..k])
    {
      assert before[..k] == events[..k];
    }
  }

  /** Replication over every run: at its end each registered client holds the server's
      transcript at the server's cursor, every stream ever sent, closed ones included, was usable
      at every message and never went back, at most eight clients are registered, and one log gives
      each cursor one transcript for everyone, the server at every point of the run included. */
  lemma EveryRunReplicates(transcript: Transcript, pane: Option<Str>, epoch: nat, events: seq<Event>)
    requires WellFormed(transcript) && LawfulRun(Start(transcript, pane, epoch), events)
    ensures exists log ::
      && Inv(Run(Start(transcript, pane, epoch), events), log)
      && forall k :: 0 <= k <= |events| ==> Recorded(Start(transcript, pane, epoch), events, k, log)
  {
    var log := RunKeeps(transcript, pane, epoch, events);
  }
}
