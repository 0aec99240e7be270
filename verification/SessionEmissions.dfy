/** What one call does to a session: which changes it makes, who is sent them, who is dropped, and what
    the transcript is then (crates/sheprd-acp/src/session.rs, `emit`, `bound`, `attach` and `detach`). */
module SessionEmissions {
  import opened Basics
  import opened Transcripts
  import opened Wire
  import opened Sessions

  /** The outbox took the `count` messages that come after number `n`. */
  predicate TookFrom(fate: Fate, conn: ConnId, n: nat, count: nat) {
    forall k :: n < k <= n + count ==> fate(conn, k)
  }

  /** The subscribers that took all of `messages`, each with them, in the order they had. */
  function Staying(subscribers: seq<Subscriber>, messages: Stream, fate: Fate, n: nat): seq<Subscriber> {
    if subscribers == [] then []
    else
      var last := subscribers[|subscribers| - 1];
      Staying(subscribers[..|subscribers| - 1], messages, fate, n)
      + if TookFrom(fate, last.conn, n, |messages|) then [last.(stream := last.stream + messages)] else []
  }

  lemma StaySnoc(subscribers: seq<Subscriber>, last: Subscriber, messages: Stream, fate: Fate, n: nat)
    ensures Staying(subscribers + [last], messages, fate, n)
         == Staying(subscribers, messages, fate, n)
            + if TookFrom(fate, last.conn, n, |messages|) then [last.(stream := last.stream + messages)] else []
  {
    assert (subscribers + [last])[..|subscribers|] == subscribers;
  }

  lemma TookThen(fate: Fate, conn: ConnId, n: nat, a: nat, b: nat)
    ensures TookFrom(fate, conn, n, a + b) <==> TookFrom(fate, conn, n, a) && TookFrom(fate, conn, n + a, b)
  {}

  lemma {:induction false} StayThen(subscribers: seq<Subscriber>, a: Stream, b: Stream, fate: Fate, n: nat)
    ensures Staying(Staying(subscribers, a, fate, n), b, fate, n + |a|) == Staying(subscribers, a + b, fate, n)
  {
    hide TookFrom;
    if subscribers != [] {
      var m := |subscribers| - 1;
      var before, last := Staying(subscribers[..m], a, fate, n), subscribers[m];
      StayThen(subscribers[..m], a, b, fate, n);
      TookThen(fate, last.conn, n, |a|, |b|);
      if TookFrom(fate, last.conn, n, |a|) {
        StaySnoc(before, last.(stream := last.stream + a), b, fate, n + |a|);
        ConcatAssoc(last.stream, a, b);
      } else {
        assert before + [] == before;
      }
    }
  }

  lemma {:induction false} TakingStays(subscribers: seq<Subscriber>, message: ServerMessage, fate: Fate, n: nat)
    ensures Taking(subscribers, message, fate, n + 1) == Staying(subscribers, [message], fate, n)
  {
    if subscribers != [] {
      TakingStays(subscribers[..|subscribers| - 1], message, fate, n);
      assert TookFrom(fate, subscribers[|subscribers| - 1].conn, n, 1)
        <==> fate(subscribers[|subscribers| - 1].conn, n + 1);
    }
  }

  lemma {:induction false} RemoteFalls(subscribers: seq<Subscriber>, messages: Stream, fate: Fate, n: nat)
    ensures Remote(Staying(subscribers, messages, fate, n)) <= Remote(subscribers)
  {
    if subscribers != [] {
      var m := |subscribers| - 1;
      var before := Staying(subscribers[..m], messages, fate, n);
      RemoteFalls(subscribers[..m], messages, fate, n);
      var last := subscribers[m].(stream := subscribers[m].stream + messages);
      assert (before + [last])[..|before|] == before && before + [] == before;
    }
  }

  /** The changes as the log has them. */
  function LoggedFrom(n: nat, changes: seq<Change>): (r: seq<Logged>)
    ensures |r| == |changes| && forall i :: 0 <= i < |r| ==> r[i] == Logged(n + i + 1, changes[i])
  {
    seq(|changes|, i requires 0 <= i < |changes| => Logged(n + i + 1, changes[i]))
  }

  ghost predicate EndsOf(log: seq<Logged>, all: seq<Logged>) {
    |log| <= |all| && log == all[|all| - |log|..]
  }

  /** From `s` to `r` the session made `changes`, in order: they are applied, numbered, logged and sent
      to every subscriber, and exactly those that took them all are left. */
  ghost predicate Made(s: State, r: State, changes: seq<Change>, fate: Fate) {
    && Fold(s.transcript, changes) == Fits(r.transcript)
    && r.epoch == s.epoch && r.pane == s.pane && r.seq_ == s.seq_ + |changes|
    && r.subscribers == Staying(s.subscribers, Numbered(s.At(), changes), fate, s.seq_)
    && EndsOf(r.log, s.log + LoggedFrom(s.seq_, changes))
  }

  lemma EndsThen(a: seq<Logged>, b: seq<Logged>, log: seq<Logged>, n: nat, first: seq<Change>, more: seq<Change>)
    requires EndsOf(a, log + LoggedFrom(n, first)) && EndsOf(b, a + LoggedFrom(n + |first|, more))
    ensures EndsOf(b, log + LoggedFrom(n, first + more))
  {
    var before := log + LoggedFrom(n, first);
    var rest := LoggedFrom(n + |first|, more);
    assert LoggedFrom(n, first + more) == LoggedFrom(n, first) + rest;
    ConcatAssoc(log, LoggedFrom(n, first), rest);
    EndsOn(a, before, b, rest);
  }

  lemma EndsOn(a: seq<Logged>, before: seq<Logged>, b: seq<Logged>, rest: seq<Logged>)
    requires EndsOf(a, before) && EndsOf(b, a + rest)
    ensures EndsOf(b, before + rest)
  {
    var d := |before| - |a|;
    assert a + rest == (before + rest)[d..];
  }

  lemma MadeThen(s: State, a: State, r: State, first: seq<Change>, more: seq<Change>, fate: Fate)
    requires Made(s, a, first, fate) && Made(a, r, more, fate)
    ensures Made(s, r, first + more, fate)
  {
    hide Fold;
    hide Staying;
    hide EndsOf;
    FoldConcat(s.transcript, first, more);
    NumberedConcat(s.At(), first, more);
    NumberedAt(s.At(), first, |first|);
    StayThen(s.subscribers, Numbered(s.At(), first), Numbered(a.At(), more), fate, s.seq_);
    EndsThen(a.log, r.log, s.log, s.seq_, first, more);
  }

  lemma AcceptMakes(s: State, change: Change, fate: Fate)
    requires Apply(s.transcript, change).Fits?
    ensures Made(s, AcceptAndSend(s, change, fate), [change], fate)
    ensures AcceptAndSend(s, change, fate).transcript == Apply(s.transcript, change).t
  {
    hide AcceptAndSend;
    hide Apply;
    hide Staying;
    hide Fold;
    hide EndsOf;
    hide Numbered;
    FoldsOne(s.transcript, change);
    AcceptSends(s, change, fate);
    AcceptLogs(s, change, fate);
  }

  lemma AcceptSends(s: State, change: Change, fate: Fate)
    requires Apply(s.transcript, change).Fits?
    ensures var r := AcceptAndSend(s, change, fate);
      && r.transcript == Apply(s.transcript, change).t
      && r.epoch == s.epoch && r.pane == s.pane && r.seq_ == s.seq_ + 1
      && r.subscribers == Staying(s.subscribers, Numbered(s.At(), [change]), fate, s.seq_)
  {
    AcceptParts(s, change, fate);
    hide AcceptAndSend;
    hide Apply;
    hide Taking;
    hide Staying;
    TakingStays(s.subscribers, Changed(change, Cursor(s.epoch, s.seq_ + 1)), fate, s.seq_);
    OneNumbered(s.At(), change);
  }

  lemma AcceptLogs(s: State, change: Change, fate: Fate)
    requires Apply(s.transcript, change).Fits?
    ensures EndsOf(AcceptAndSend(s, change, fate).log, s.log + LoggedFrom(s.seq_, [change]))
  {
    AcceptParts(s, change, fate);
    hide AcceptAndSend;
    hide Apply;
    AcceptEnds(s.log, Evicted(s.log, s.logBytes, ChangeSize(change)), s.seq_, change);
    hide EndsOf;
  }

  lemma FoldsOne(t: Transcript, change: Change)
    ensures Fold(t, [change]) == Apply(t, change)
  {
    hide Apply;
    FoldSnoc(t, [], change);
    assert [] + [change] == [change];
  }

  lemma AcceptParts(s: State, change: Change, fate: Fate)
    requires Apply(s.transcript, change).Fits?
    ensures var r, n := AcceptAndSend(s, change, fate), s.seq_ + 1;
      && r.transcript == Apply(s.transcript, change).t && r.seq_ == n && r.epoch == s.epoch && r.pane == s.pane
      && r.subscribers == Taking(s.subscribers, Changed(change, Cursor(s.epoch, n)), fate, n)
      && r.log == s.log[Evicted(s.log, s.logBytes, ChangeSize(change))..] + [Logged(n, change)]
  {
    hide Apply;
    hide Taking;
  }

  lemma AcceptEnds(log: seq<Logged>, d: nat, n: nat, change: Change)
    requires d <= |log|
    ensures EndsOf(log[d..] + [Logged(n + 1, change)], log + LoggedFrom(n, [change]))
  {
    var all := log + LoggedFrom(n, [change]);
    assert LoggedFrom(n, [change]) == [Logged(n + 1, change)];
    assert log[d..] + [Logged(n + 1, change)] == all[d..];
  }

  lemma OneNumbered(at: Cursor, change: Change)
    ensures Numbered(at, [change]) == [Changed(change, at.Next())]
  {
    NumberedAt(at, [change], 1);
  }

  /** The transcript after a change that made `u`: without the oldest entries when it was content and
      too much, and with the clients counted again when one was lost. */
  function Settled(u: Transcript, content: bool, before: nat, after: nat): Transcript {
    var drop := if content then KeepFrom(u.entries) else 0;
    u.(entries := u.entries[drop..], truncated := u.truncated || drop > 0,
       details := if after == before then u.details else u.details.(clients := after))
  }

  /** What follows a change is the truncation it needs and new counts of the clients. */
  ghost predicate Consequences(changes: seq<Change>) {
    forall i :: 0 < i < |changes| ==> changes[i].Truncate? || changes[i].SetClients?
  }

  lemma ConsequencesMore(changes: seq<Change>, more: seq<Change>)
    requires changes != [] && Consequences(changes)
    requires more == [] || ((more[0].Truncate? || more[0].SetClients?) && Consequences(more))
    ensures Consequences(changes + more)
  {}

  /** A change that does not fit does nothing. One that fits is the first change made, followed only by
      what it makes necessary, and the transcript is then `Settled`. It is the only one exactly when
      nothing has to be dropped and every remote subscriber took it. */
  lemma {:induction false} EmitMakes(s: State, change: Change, fate: Fate) returns (changes: seq<Change>)
    requires WellFormed(s.transcript)
    ensures var r, applied := Emit(s, change, fate), Apply(s.transcript, change);
      if applied.Refused? then r == s && changes == []
      else
        && Made(s, r, changes, fate) && changes != [] && changes[0] == change && Consequences(changes)
        && Remote(r.subscribers) <= Remote(s.subscribers)
        && r.transcript == Settled(applied.t, IsContent(change), Remote(s.subscribers), Remote(r.subscribers))
        && (|changes| == 1 <==>
              && (IsContent(change) ==> Bounded(applied.t.entries))
              && Remote(r.subscribers) == Remote(s.subscribers))
    decreases IsContent(change), |s.subscribers|
  {
    hide Made;
    hide Apply;
    hide WellFormed;
    hide Bounded;
    hide Remote;
    hide AcceptAndSend;
    hide Bound;
    hide Settled;
    hide Consequences;
    changes := [];
    EmitUnfolds(s, change, fate);
    hide Emit;
    if Apply(s.transcript, change).Fits? {
      var u := Apply(s.transcript, change).t;
      var bound;
      bound, changes := FirstMade(s, change, fate);
      var before, now := Remote(s.subscribers), Remote(bound.subscribers);
      if now != before {
        var count := SetClients(now);
        MadeWell(s, bound, changes, fate);
        var more := EmitMakes(bound, count, fate);
        CountSets(bound.transcript, now);
        var r := Emit(bound, count, fate);
        changes := ThenMade(s, bound, r, changes, more, fate);
        SettledAgain(u, IsContent(change), before, now, Remote(r.subscribers), bound.transcript);
      }
    }
  }

  /** Up to the count: the change and the truncation it needs. */
  lemma {:induction false} FirstMade(s: State, change: Change, fate: Fate) returns (bound: State, changes: seq<Change>)
    requires WellFormed(s.transcript) && Apply(s.transcript, change).Fits?
    ensures var sent := AcceptAndSend(s, change, fate);
      bound == if IsContent(change) then Bound(sent, fate) else sent
    ensures var u, before, now := Apply(s.transcript, change).t, Remote(s.subscribers), Remote(bound.subscribers);
      && Made(s, bound, changes, fate) && changes != [] && changes[0] == change && Consequences(changes)
      && now <= before && (|changes| == 1 <==> (IsContent(change) ==> Bounded(u.entries)))
      && HalfSettled(bound.transcript, u, IsContent(change), before, now)
    decreases IsContent(change), |s.subscribers|, 1
  {
    hide Made;
    hide Apply;
    hide WellFormed;
    hide Bounded;
    hide Remote;
    hide AcceptAndSend;
    hide Bound;
    hide Settled;
    hide HalfSettled;
    hide Consequences;
    hide Emit;
    var u, sent := Apply(s.transcript, change).t, AcceptAndSend(s, change, fate);
    ApplyKeepsWellFormed(s.transcript, change);
    AcceptMakes(s, change, fate);
    MadeFalls(s, sent, [change], fate);
    OneHasNone(change);
    var before, there := Remote(s.subscribers), Remote(sent.subscribers);
    bound, changes := sent, [change];
    if IsContent(change) {
      bound := Bound(sent, fate);
      var more := BoundMakes(sent, fate);
      changes := ThenMade(s, sent, bound, changes, more, fate);
      HalfBound(bound.transcript, u, before, there, Remote(bound.subscribers));
    } else {
      HalfSent(u, before, there);
    }
  }

  lemma OneHasNone(change: Change)
    ensures Consequences([change])
  {}

  lemma HalfSent(u: Transcript, before: nat, after: nat)
    ensures HalfSettled(u, u, false, before, after)
  {
    assert u.entries[0..] == u.entries;
  }

  lemma HalfBound(t: Transcript, u: Transcript, before: nat, there: nat, after: nat)
    requires t == Settled(u, true, there, after) && after <= there <= before
    ensures HalfSettled(t, u, true, before, after)
  {
    hide KeepFrom;
  }

  /** Settled but perhaps for the count. */
  ghost predicate HalfSettled(t: Transcript, u: Transcript, content: bool, before: nat, after: nat) {
    && t.(details := t.details.(clients := after)) == WithCount(Settled(u, content, before, after), after)
    && (after == before ==> t == Settled(u, content, before, after))
  }

  function WithCount(t: Transcript, count: nat): Transcript { t.(details := t.details.(clients := count)) }

  lemma SettledAgain(u: Transcript, content: bool, before: nat, now: nat, after: nat, t: Transcript)
    requires HalfSettled(t, u, content, before, now) && after <= now < before
    ensures Settled(WithCount(t, now), false, now, after) == Settled(u, content, before, after)
  {
    hide KeepFrom;
    assert t.entries[0..] == t.entries;
  }

  lemma EmitUnfolds(s: State, change: Change, fate: Fate)
    ensures Apply(s.transcript, change).Refused? ==> Emit(s, change, fate) == s
    ensures Apply(s.transcript, change).Fits? ==>
      var sent := AcceptAndSend(s, change, fate);
      var bound := if IsContent(change) then Bound(sent, fate) else sent;
      Emit(s, change, fate)
      == if Remote(bound.subscribers) == Remote(s.subscribers) then bound
         else Emit(bound, SetClients(Remote(bound.subscribers)), fate)
  {
    hide Apply;
    hide AcceptAndSend;
    hide Bound;
    hide Remote;
  }

  lemma ThenMade(s: State, a: State, r: State, first: seq<Change>, more: seq<Change>, fate: Fate)
    returns (changes: seq<Change>)
    requires Made(s, a, first, fate) && first != [] && Consequences(first)
    requires if more == [] then r == a else Made(a, r, more, fate)
    requires more == [] || ((more[0].Truncate? || more[0].SetClients?) && Consequences(more))
    ensures changes == first + more && Made(s, r, changes, fate) && Consequences(changes) && changes[0] == first[0]
  {
    hide Made;
    changes := first + more;
    ConsequencesMore(first, more);
    if more == [] {
      assert changes == first;
    } else {
      MadeThen(s, a, r, first, more, fate);
    }
  }

  lemma MadeFalls(s: State, r: State, changes: seq<Change>, fate: Fate)
    requires Made(s, r, changes, fate)
    ensures Remote(r.subscribers) <= Remote(s.subscribers)
  {
    RemoteFalls(s.subscribers, Numbered(s.At(), changes), fate, s.seq_);
  }

  lemma MadeWell(s: State, r: State, changes: seq<Change>, fate: Fate)
    requires Made(s, r, changes, fate) && WellFormed(s.transcript)
    ensures WellFormed(r.transcript)
  {
    FoldKeepsWellFormed(s.transcript, changes);
  }

  lemma CountSets(t: Transcript, count: nat)
    ensures Apply(t, SetClients(count)) == Fits(WithCount(t, count))
  {}

  lemma TruncateSets(t: Transcript, drop: nat)
    requires Ordered(t.entries) && 0 < drop < |t.entries|
    ensures Apply(t, Truncate(t.entries[drop].id)) == Fits(t.(entries := t.entries[drop..], truncated := true))
  {
    ApplyTruncate(t, t.entries[drop].id);
    LeadingExactly(t.entries, drop);
  }

  lemma WellOrdered(t: Transcript)
    requires WellFormed(t)
    ensures Ordered(t.entries)
  {}

  lemma BoundedExactly(entries: seq<Entry>)
    ensures KeepFrom(entries) == 0 <==> Bounded(entries)
  {
    assert entries[0..] == entries;
  }

  lemma {:induction false} BoundMakes(s: State, fate: Fate) returns (changes: seq<Change>)
    requires WellFormed(s.transcript)
    ensures var r := Bound(s, fate);
      && (changes == [] <==> Bounded(s.transcript.entries)) && (changes == [] ==> r == s)
      && (changes != [] ==> Made(s, r, changes, fate) && changes[0].Truncate? && Consequences(changes))
      && Remote(r.subscribers) <= Remote(s.subscribers)
      && r.transcript == Settled(s.transcript, true, Remote(s.subscribers), Remote(r.subscribers))
    decreases true, |s.subscribers|, 0
  {
    hide Made;
    hide Apply;
    hide WellFormed;
    hide Bounded;
    hide Remote;
    hide Emit;
    var entries := s.transcript.entries;
    var drop := KeepFrom(entries);
    BoundedExactly(entries);
    changes := [];
    if drop == 0 {
      assert entries[0..] == entries;
    } else {
      WellOrdered(s.transcript);
      TruncateSets(s.transcript, drop);
      changes := EmitMakes(s, Truncate(entries[drop].id), fate);
      var u := s.transcript.(entries := entries[drop..], truncated := true);
      assert u.entries[0..] == u.entries;
    }
  }

  // ----- the log keeps what it can

  /** No more of the log is given up than makes room. */
  lemma {:induction false} LogKeepsMost(log: seq<Logged>, bytes: nat, size: nat, less: nat)
    requires bytes == LogSize(log) && |log| <= LOG && less < Evicted(log, bytes, size)
    ensures |log[less..]| == LOG || LogSize(log[less..]) + size > LOG_BYTES
    decreases |log|
  {
    if less == 0 {
      assert log[0..] == log;
    } else {
      assert log[1..][less - 1..] == log[less..];
      LogKeepsMost(log[1..], bytes - ChangeSize(log[0].change), size, less - 1);
    }
  }

  /** The log still goes on from what the client holds. */
  predicate StillLogged(s: State, held: View) {
    held.Holding? && held.cursor.epoch == s.epoch && held.cursor.seq_ <= s.seq_ <= held.cursor.seq_ + |s.log|
  }

  lemma LoggedExactly(s: State, held: View, history: seq<Transcript>)
    requires Inv(s, history)
    ensures CanCatchUp(s, held) <==> StillLogged(s, held)
    ensures |s.log| <= s.seq_ && forall i :: 0 <= i < |s.log| ==> s.log[i].seq_ == s.seq_ - |s.log| + i + 1
  {
    InvParts(s, history);
    hide Inv;
    LogNumbers(s.log, s.seq_, history);
  }

  /** A client that holds what the log still goes on from is sent the changes after it and no snapshot;
      any other is sent a snapshot. */
  lemma CatchUpExactly(s: State, held: View, history: seq<Transcript>)
    requires Inv(s, history)
    ensures !StillLogged(s, held) ==> CatchUp(s, held) == [Snapshot(s.At(), s.transcript)]
    ensures StillLogged(s, held) ==>
      var due, since := CatchUp(s, held), held.cursor.seq_;
      && |due| == s.seq_ - since
      && forall i :: 0 <= i < |due| ==>
           due[i] == Changed(s.log[|s.log| - |due| + i].change, Cursor(s.epoch, since + i + 1))
  {
    LoggedExactly(s, held, history);
    hide Inv;
    hide After;
    hide ToMessages;
    if StillLogged(s, held) { MissedMessages(s.epoch, s.log, s.seq_, held.cursor.seq_); }
  }

  lemma InvParts(s: State, history: seq<Transcript>)
    requires Inv(s, history)
    ensures |history| == s.seq_ + 1 && |s.log| <= s.seq_ && LogOk(s.log, s.seq_, history)
  {}

  lemma MissedMessages(epoch: nat, log: seq<Logged>, seq_: nat, since: nat)
    requires since <= seq_ <= since + |log| && |log| <= seq_
    requires forall i :: 0 <= i < |log| ==> log[i].seq_ == seq_ - |log| + i + 1
    ensures var due := ToMessages(epoch, After(log, since));
      && |due| == seq_ - since
      && forall i :: 0 <= i < |due| ==>
           due[i] == Changed(log[|log| - |due| + i].change, Cursor(epoch, since + i + 1))
  {
    AfterIsSuffix(log, since, since + |log| - seq_);
  }

  // ----- attaching and detaching

  /** A client that does not take all it is due is not registered; one that does is the last
      subscriber, and when it is remote the clients are counted again. */
  lemma AttachMakes(s: State, conn: ConnId, local: bool, held: View, room: nat, fate: Fate)
    returns (changes: seq<Change>)
    requires WellFormed(s.transcript)
    ensures var r := OnAttach(s, conn, local, held, room, fate);
      var due := [Welcome(s.transcript.details.agent, s.pane, VERSION)] + CatchUp(s, held);
      var joined := s.(subscribers := s.subscribers + [Subscriber(conn, local, held, due)]);
      if room < |due| then r == s.(closed := r.closed)
      else if local then r == joined
      else
        && Made(joined, r, changes, fate) && changes != [] && Consequences(changes)
        && changes[0] == SetClients(Remote(joined.subscribers))
        && r.transcript == s.transcript.(details := s.transcript.details.(clients := Remote(r.subscribers)))
  {
    hide Emit;
    hide Made;
    hide Apply;
    hide WellFormed;
    hide Remote;
    var due := [WelcomeOf(s)] + CatchUp(s, held);
    var joined := s.(subscribers := s.subscribers + [Subscriber(conn, local, held, due)]);
    changes := [];
    if room >= |due| && !local {
      CountSets(s.transcript, Remote(joined.subscribers));
      changes := EmitMakes(joined, SetClients(Remote(joined.subscribers)), fate);
      assert s.transcript.entries[0..] == s.transcript.entries;
    }
  }

  lemma {:induction false} ExceptExactly(subscribers: seq<Subscriber>, conn: ConnId, x: Subscriber)
    ensures x in Except(subscribers, conn) <==> x in subscribers && x.conn != conn
  {
    if subscribers != [] {
      var n := |subscribers| - 1;
      ExceptExactly(subscribers[..n], conn, x);
      assert subscribers == subscribers[..n] + [subscribers[n]];
    }
  }

  /** A client that leaves is no subscriber any more, and when it was remote the clients are counted
      again. */
  lemma DetachMakes(s: State, conn: ConnId, fate: Fate) returns (changes: seq<Change>)
    requires WellFormed(s.transcript)
    ensures var r, left := OnDetach(s, conn, fate), Except(s.subscribers, conn);
      if Remote(left) == Remote(s.subscribers) then r == s.(subscribers := left, closed := r.closed)
      else
        && Made(s.(subscribers := left), r, changes, fate) && changes != [] && Consequences(changes)
        && changes[0] == SetClients(Remote(left))
        && r.transcript == s.transcript.(details := s.transcript.details.(clients := Remote(r.subscribers)))
    ensures forall x :: x in OnDetach(s, conn, fate).subscribers ==> x.conn != conn
  {
    hide Emit;
    hide Apply;
    hide Fold;
    hide EndsOf;
    hide WellFormed;
    hide Remote;
    hide Staying;
    var left := s.(subscribers := Except(s.subscribers, conn),
                   closed := s.closed + set x | x in s.subscribers && x.conn == conn);
    forall x ensures x in left.subscribers ==> x.conn != conn { ExceptExactly(s.subscribers, conn, x); }
    hide Except;
    changes := [];
    if Remote(left.subscribers) != Remote(s.subscribers) {
      CountSets(s.transcript, Remote(left.subscribers));
      changes := EmitMakes(left, SetClients(Remote(left.subscribers)), fate);
      assert s.transcript.entries[0..] == s.transcript.entries;
      forall x | x in OnDetach(s, conn, fate).subscribers ensures x.conn != conn {
        StayingFrom(left.subscribers, Numbered(s.At(), changes), fate, s.seq_, x);
      }
    }
  }

  lemma {:induction false} StayingFrom(
    subscribers: seq<Subscriber>, messages: Stream, fate: Fate, n: nat, y: Subscriber)
    requires y in Staying(subscribers, messages, fate, n)
    ensures exists x :: x in subscribers && y == x.(stream := x.stream + messages)
  {
    var m := |subscribers| - 1;
    var last := subscribers[m];
    if y == last.(stream := last.stream + messages) {
      assert last in subscribers;
    } else {
      StayingFrom(subscribers[..m], messages, fate, n, y);
      var x :| x in subscribers[..m] && y == x.(stream := x.stream + messages);
      assert x in subscribers;
    }
  }

  // ----- over runs

  /** The transcript counts the remote subscribers. */
  predicate Counts(s: State) { s.transcript.details.clients == Remote(s.subscribers) }

  lemma OthersKeepCount(t: Transcript, change: Change)
    requires Apply(t, change).Fits? && !change.SetClients?
    ensures Apply(t, change).t.details.clients == t.details.clients
  {}

  lemma RemoteSnoc(subscribers: seq<Subscriber>, last: Subscriber)
    ensures Remote(subscribers + [last]) == Remote(subscribers) + if last.local then 0 else 1
  {
    assert (subscribers + [last])[..|subscribers|] == subscribers;
  }

  predicate CountsAlone(op: Op) { op.DoEmit? ==> !op.change.SetClients? }

  lemma StepCounts(s: State, op: Op)
    requires WellFormed(s.transcript) && Counts(s) && CountsAlone(op)
    ensures Counts(Step(s, op))
  {
    hide WellFormed;
    hide Apply;
    hide Remote;
    hide Made;
    hide Emit;
    hide OnAttach;
    hide OnDetach;
    match op
    case DoEmit(change, fate) =>
      if Apply(s.transcript, change).Fits? { OthersKeepCount(s.transcript, change); }
      var _ := EmitMakes(s, change, fate);
    case DoAttach(conn, local, held, room, fate) =>
      var _ := AttachMakes(s, conn, local, held, room, fate);
      RemoteSnoc(s.subscribers, Subscriber(conn, local, held, [WelcomeOf(s)] + CatchUp(s, held)));
    case DoDetach(conn, fate) =>
      var _ := DetachMakes(s, conn, fate);
  }

  /** Over every run of a session that begins without clients the transcript counts its remote
      subscribers, whoever was lost on the way. */
  lemma {:induction false} EveryRunCounts(epoch: nat, pane: Option<Str>, transcript: Transcript, ops: seq<Op>)
    requires WellFormed(transcript) && Bounded(transcript.entries) && transcript.details.clients == 0
    requires HonestRun(Start(epoch, pane, transcript), ops)
    requires forall k :: 0 <= k < |ops| ==> CountsAlone(ops[k])
    ensures Counts(Run(Start(epoch, pane, transcript), ops))
  {
    hide Step;
    hide Bounded;
    var start := Start(epoch, pane, transcript);
    if ops != [] {
      var n := |ops| - 1;
      HonestBefore(start, ops);
      EveryRunCounts(epoch, pane, transcript, ops[..n]);
      WellBefore(start, ops[..n]);
      StepCounts(Run(start, ops[..n]), ops[n]);
    }
  }

  lemma HonestBefore(start: State, ops: seq<Op>)
    requires HonestRun(start, ops) && ops != []
    ensures HonestRun(start, ops[..|ops| - 1])
  {
    var before := ops[..|ops| - 1];
    forall k | 0 <= k < |before| && before[k].DoAttach? ensures Honest(Run(start, before[..k]), before[k].held) {
      assert before[..k] == ops[..k];
    }
  }

  lemma WellBefore(start: State, ops: seq<Op>)
    requires start == Start(start.epoch, start.pane, start.transcript) && HonestRun(start, ops)
    requires WellFormed(start.transcript) && Bounded(start.transcript.entries)
    ensures WellFormed(Run(start, ops).transcript)
  {
    hide WellFormed;
    hide Run;
    hide Bounded;
    hide LogOk;
    hide LogFits;
    hide HonestRun;
    var _ := RunKeeps(start, ops);
  }
}
