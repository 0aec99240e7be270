/** What one input or one reading does to a mirror: whom it reaches, with what, and who is dropped
    (crates/sheprd-acp/src/mirror.rs, `input`, `broadcast` and `update`). */
module MirrorReadings {
  import opened Basics
  import opened Transcripts
  import opened Wire
  import opened Mirrors
  import D = Diff

  /** The connection's outbox took the first `n` messages of a step. */
  predicate Took(fate: Fate, conn: ConnId, n: nat) { forall k :: 0 <= k < n ==> fate(conn, k) }

  /** It took `n` of them and refused the next. */
  predicate StoppedAt(fate: Fate, conn: ConnId, n: nat, total: nat) {
    n < total && Took(fate, conn, n) && !fate(conn, n)
  }

  /** The stream of a client that was dropped on the way. */
  ghost predicate CutOff(s: State, messages: Stream, fate: Fate, stream: Stream, conn: ConnId, n: nat) {
    conn in s.clients && StoppedAt(fate, conn, n, |messages|) && stream == s.clients[conn] + messages[..n]
  }

  ghost predicate WasCutOff(s: State, messages: Stream, fate: Fate, stream: Stream) {
    exists conn, n: nat :: CutOff(s, messages, fate, stream, conn, n)
  }

  /** From `s` to `r` every client was sent `messages` in order: one that took all of them is still
      registered, with them, and one that did not is closed with those it took. */
  ghost predicate SentAll(s: State, r: State, messages: Stream, fate: Fate) {
    && r.pane == s.pane
    && (forall conn :: conn in r.clients <==> conn in s.clients && Took(fate, conn, |messages|))
    && (forall conn :: conn in r.clients ==> r.clients[conn] == s.clients[conn] + messages)
    && (forall stream :: stream in r.closed <==> stream in s.closed || WasCutOff(s, messages, fate, stream))
  }

  lemma NothingSent(s: State, r: State, fate: Fate)
    requires r == s.(transcript := r.transcript)
    ensures SentAll(s, r, [], fate)
  {
    assert forall conn :: conn in s.clients ==> s.clients[conn] + [] == s.clients[conn];
  }

  lemma TookMore(fate: Fate, conn: ConnId, n: nat)
    ensures Took(fate, conn, n + 1) <==> Took(fate, conn, n) && fate(conn, n)
  {}

  lemma CutOffMore(s: State, messages: Stream, message: ServerMessage, fate: Fate, stream: Stream, conn: ConnId, n: nat)
    ensures CutOff(s, messages + [message], fate, stream, conn, n) <==>
      CutOff(s, messages, fate, stream, conn, n)
      || (conn in s.clients && n == |messages| && Took(fate, conn, n) && !fate(conn, n)
          && stream == s.clients[conn] + messages)
  {
    hide Took;
    if n < |messages| { assert (messages + [message])[..n] == messages[..n]; }
    assert (messages + [message])[..|messages|] == messages;
  }

  /** One more message sent to those still there. */
  lemma SentMore(s: State, b: State, messages: Stream, message: ServerMessage, fate: Fate)
    requires SentAll(s, b, messages, fate)
    ensures SentAll(s, Broadcast(b, message, fate, |messages|), messages + [message], fate)
  {
    var n := |messages|;
    var r, longer := Broadcast(b, message, fate, n), messages + [message];
    forall conn ensures conn in r.clients <==> conn in s.clients && Took(fate, conn, |longer|) {
      TookMore(fate, conn, n);
    }
    forall conn | conn in r.clients ensures r.clients[conn] == s.clients[conn] + longer {
      ConcatAssoc(s.clients[conn], messages, [message]);
    }
    hide Took;
    forall stream ensures stream in r.closed <==> stream in s.closed || WasCutOff(s, longer, fate, stream) {
      ClosedMore(s, b, messages, message, fate, stream);
    }
  }

  lemma ClosedMore(s: State, b: State, messages: Stream, message: ServerMessage, fate: Fate, stream: Stream)
    requires SentAll(s, b, messages, fate)
    ensures stream in Broadcast(b, message, fate, |messages|).closed
       <==> stream in s.closed || WasCutOff(s, messages + [message], fate, stream)
  {
    hide Took;
    var n, longer := |messages|, messages + [message];
    var r := Broadcast(b, message, fate, n);
    if stream in b.closed && stream !in s.closed {
      var conn, k: nat :| CutOff(s, messages, fate, stream, conn, k);
      CutOffMore(s, messages, message, fate, stream, conn, k);
    }
    if conn :| conn in b.clients && !fate(conn, n) && stream == b.clients[conn] {
      CutOffMore(s, messages, message, fate, stream, conn, n);
      assert CutOff(s, longer, fate, stream, conn, n);
    }
    if stream !in s.closed {
      if conn, k: nat :| CutOff(s, longer, fate, stream, conn, k) {
        CutOffMore(s, messages, message, fate, stream, conn, k);
        if !CutOff(s, messages, fate, stream, conn, k) { assert conn in b.clients; }
      }
    }
  }

  lemma {:induction false} ChangesSent(s: State, changes: seq<Change>, n: nat, fate: Fate)
    requires n <= |changes|
    ensures var r := SendChanges(s, changes, n, fate);
      && r.transcript == s.transcript && r.cursor == Cursor(s.cursor.epoch, s.cursor.seq_ + n)
      && SentAll(s, r, NumberedTo(s.cursor, changes, n), fate)
  {
    hide SentAll;
    hide SendChanges;
    hide Broadcast;
    hide NumberedTo;
    if n == 0 {
      NoneSent(s, changes, fate);
      NothingSent(s, s, fate);
    } else {
      ChangesSent(s, changes, n - 1, fate);
      var b, sent := SendChanges(s, changes, n - 1, fate), NumberedTo(s.cursor, changes, n - 1);
      SendNext(s, changes, n - 1, fate);
      NumberedAt(s.cursor, changes, n - 1);
      var message := Changed(changes[n - 1], Cursor(s.cursor.epoch, s.cursor.seq_ + n));
      SentMore(s, b, sent, message, fate);
      SameSent(s, Broadcast(b, message, fate, n - 1), SendChanges(s, changes, n, fate), sent + [message], fate);
    }
  }

  lemma NoneSent(s: State, changes: seq<Change>, fate: Fate)
    ensures SendChanges(s, changes, 0, fate) == s && NumberedTo(s.cursor, changes, 0) == []
  {}

  lemma SendNext(s: State, changes: seq<Change>, n: nat, fate: Fate)
    requires n < |changes|
    ensures NumberedTo(s.cursor, changes, n + 1)
         == NumberedTo(s.cursor, changes, n) + [Changed(changes[n], Cursor(s.cursor.epoch, s.cursor.seq_ + n + 1))]
    ensures var b, r := SendChanges(s, changes, n, fate), SendChanges(s, changes, n + 1, fate);
      && r.transcript == b.transcript && r.cursor == b.cursor.Next()
      && r == Broadcast(b, Changed(changes[n], r.cursor), fate, n).(cursor := r.cursor)
  {}

  lemma SameSent(s: State, a: State, b: State, messages: Stream, fate: Fate)
    requires SentAll(s, a, messages, fate) && b == a.(cursor := b.cursor, transcript := b.transcript)
    ensures SentAll(s, b, messages, fate)
  {}

  lemma SentFrom(s: State, moved: State, r: State, messages: Stream, fate: Fate)
    requires SentAll(moved, r, messages, fate) && moved == s.(cursor := moved.cursor, transcript := moved.transcript)
    ensures SentAll(s, r, messages, fate)
  {
    forall stream ensures WasCutOff(moved, messages, fate, stream) <==> WasCutOff(s, messages, fate, stream) {
      if conn, n: nat :| CutOff(moved, messages, fate, stream, conn, n) {
        assert CutOff(s, messages, fate, stream, conn, n);
      }
      if conn, n: nat :| CutOff(s, messages, fate, stream, conn, n) {
        assert CutOff(moved, messages, fate, stream, conn, n);
      }
    }
  }

  /** The reading changes something a client is told of. */
  ghost predicate Visible(previous: Transcript, next: Transcript) {
    !D.Same(next.(details := previous.details, permissions := previous.permissions), previous)
  }

  /** After a reading the server holds it, and every client was sent the same messages: the diff,
      numbered on from the cursor, or a snapshot of a new epoch when there is none. */
  lemma ReadingReaches(s: State, next: Transcript, epoch: nat, fate: Fate) returns (messages: Stream)
    ensures var r := OnReading(s, next, epoch, fate);
      && r.transcript == next && SentAll(s, r, messages, fate)
      && (next == s.transcript ==> messages == [] && r.cursor == s.cursor)
      && (next != s.transcript ==>
            var changes := D.Changes(s.transcript, next);
            if changes.Some?
            then messages == Numbered(s.cursor, changes.value)
                 && r.cursor == Cursor(s.cursor.epoch, s.cursor.seq_ + |messages|)
            else messages == [Snapshot(Cursor(epoch, 0), next)] && r.cursor == Cursor(epoch, 0))
  {
    hide SentAll;
    hide D.Changes;
    messages := [];
    var changes := D.Changes(s.transcript, next);
    if next == s.transcript {
      NothingSent(s, s, fate);
    } else if changes.None? {
      var moved := s.(cursor := Cursor(epoch, 0), transcript := next);
      messages := [SnapshotOf(moved)];
      NothingSent(moved, moved, fate);
      SentMore(moved, moved, [], messages[0], fate);
      assert [] + [messages[0]] == messages;
      SentFrom(s, moved, OnReading(s, next, epoch, fate), messages, fate);
    } else {
      var moved := s.(transcript := next);
      messages := Numbered(s.cursor, changes.value);
      NumberedAt(s.cursor, changes.value, |changes.value|);
      ChangesSent(moved, changes.value, |changes.value|, fate);
      SentFrom(s, moved, OnReading(s, next, epoch, fate), messages, fate);
    }
  }

  /** A diff is empty exactly when nothing a client is told of changed. */
  lemma EmptyExactly(previous: Transcript, next: Transcript)
    requires WellFormed(previous) && WellFormed(next) && D.Changes(previous, next).Some?
    ensures D.Changes(previous, next).value == [] <==> !Visible(previous, next)
  {
    var changes := D.Changes(previous, next).value;
    assert D.Same(previous, previous);
    if changes == [] {
      D.DiffApplies(previous, previous, next);
      D.DiffSaysWhatIsNeeded(previous, next, Truncate(next.entries[0].id));
      D.DroppedExactly(previous, next);
    } else if !Visible(previous, next) {
      D.DiffSaysWhatIsNeeded(previous, next, changes[0]);
      NothingNeeded(previous, next, changes[0]);
    }
  }

  lemma NothingNeeded(previous: Transcript, next: Transcript, change: Change)
    requires WellFormed(previous) && !Visible(previous, next)
    ensures !D.Needed(previous, next, change)
  {}

  /** A reading with entries is silent exactly when it changes nothing a client is told of; every
      other one reaches every client that stays. */
  lemma ReadingIsSeen(s: State, next: Transcript, epoch: nat, fate: Fate) returns (messages: Stream)
    requires WellFormed(s.transcript) && WellFormed(next)
    ensures SentAll(s, OnReading(s, next, epoch, fate), messages, fate)
    ensures messages == [] <==> next == s.transcript || (next.entries != [] && !Visible(s.transcript, next))
  {
    messages := ReadingReaches(s, next, epoch, fate);
    hide SentAll;
    if next != s.transcript {
      if D.Changes(s.transcript, next).Some? {
        EmptyExactly(s.transcript, next);
        NumberedAt(s.cursor, D.Changes(s.transcript, next).value, |D.Changes(s.transcript, next).value|);
      } else if next.entries != [] && !Visible(s.transcript, next) {
        SilentHasDiff(s.transcript, next);
      }
    }
  }

  lemma SilentHasDiff(previous: Transcript, next: Transcript)
    requires WellFormed(previous) && WellFormed(next) && next.entries != [] && !Visible(previous, next)
    ensures D.Changes(previous, next).Some?
  {
    D.DiffExists(previous, next);
    SilentGoesOn(previous.entries, next.entries);
    hide D.Changes;
    hide D.Continues;
    hide D.StartsAfter;
    hide WellFormed;
    assert D.Calls(previous.activities) <= D.Calls(next.activities);
  }

  lemma SilentGoesOn(previous: seq<Entry>, next: seq<Entry>)
    requires next != [] && previous == next && Ordered(next)
    ensures D.Continues(previous, next)
  {
    D.NothingNew(next);
    D.RetainedIds(next, next[0].id);
    assert next[..|next|] == next;
    hide Ordered;
    hide D.Ids;
    hide D.IdsFrom;
  }

  /** Attaching: whom it registers and with what; no input moves the cursor or the transcript. */
  lemma InputReaches(s: State, input: Input, fate: Fate)
    ensures var r := OnInput(s, input, fate);
      && r.cursor == s.cursor && r.transcript == s.transcript && r.pane == s.pane && s.closed <= r.closed
      && (input.Ignored? ==> r == s)
      && (!input.Ignored? ==>
            && (forall other :: other != input.conn ==> (other in r.clients <==> other in s.clients))
            && (forall other :: other != input.conn && other in r.clients ==> r.clients[other] == s.clients[other]))
      && (input.Detach? ==> input.conn !in r.clients)
      && (input.Attach? ==>
            var joins := |s.clients| < MAX_CLIENTS && Took(fate, input.conn, 2);
            && (input.conn in r.clients <==> joins || input.conn in s.clients)
            && (input.conn in r.clients ==>
                  var welcome := Welcome(s.transcript.details.agent, s.pane, VERSION);
                  r.clients[input.conn]
                  == if joins then [welcome, Snapshot(s.cursor, s.transcript)] else s.clients[input.conn]))
      && (input.Command? || input.UnsupportedCommand? ==>
            && (input.conn in r.clients <==> input.conn in s.clients && fate(input.conn, 0))
            && (input.conn in r.clients ==>
                  r.clients[input.conn] == s.clients[input.conn] + [Ack(input.id, Some(NotReady))]))
  {
    if input.Attach? {
      TookMore(fate, input.conn, 0);
      TookMore(fate, input.conn, 1);
    }
  }

  /** Over every run the server holds the last reading, or what it began with. */
  function Latest(transcript: Transcript, events: seq<Event>): Transcript {
    if events == [] then transcript
    else
      var last := events[|events| - 1];
      if last.Reread? then last.next else Latest(transcript, events[..|events| - 1])
  }

  lemma {:induction false} RunHoldsTheLatest(s: State, events: seq<Event>)
    ensures Run(s, events).transcript == Latest(s.transcript, events)
  {
    hide OnReading;
    hide OnInput;
    if events != [] {
      var n := |events| - 1;
      var before := Run(s, events[..n]);
      RunHoldsTheLatest(s, events[..n]);
      match events[n]
      case Take(input, fate) => InputReaches(before, input, fate);
      case Reread(next, epoch, fate) => var _ := ReadingReaches(before, next, epoch, fate);
    }
  }

  /** So over every run every registered client shows the last reading at the server's cursor. */
  lemma EveryRunShowsTheLatest(transcript: Transcript, pane: Option<Str>, epoch: nat, events: seq<Event>, conn: ConnId)
    requires WellFormed(transcript) && LawfulRun(Start(transcript, pane, epoch), events)
    requires conn in Run(Start(transcript, pane, epoch), events).clients
    ensures var s := Run(Start(transcript, pane, epoch), events);
      var view := Replay(Nothing, s.clients[conn]);
      view.Holding? && view.cursor == s.cursor && D.Same(view.transcript, Latest(transcript, events))
  {
    hide Run;
    hide LawfulRun;
    RunHoldsTheLatest(Start(transcript, pane, epoch), events);
    var log := RunKeeps(transcript, pane, epoch, events);
    hide Faithful;
    var s := Run(Start(transcript, pane, epoch), events);
    assert Caught(s.clients[conn], s.cursor, s.transcript);
  }
}
