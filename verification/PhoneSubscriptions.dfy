/** The subscriptions of a phone to a chat, one after another, and what it shows over every run of them
    and of the chat: crates/sheprd-remote-control/src/native/live.rs, `follow_chat`, with
    ios/SheprdRemoteCore/Sources/SheprdRemoteCore/Live/ComputerLink.swift. */
module PhoneSubscriptions {
  import opened Basics
  import opened Transcripts
  import opened Wire
  import opened ChatStores
  import opened LiveChats
  import opened PhoneLinks
  import D = Diff
  import M = Mirrors
  import S = Sessions

  // ----- one subscription after another

  /** Where a subscription asks from: from nothing, when the phone was told to reload; from where it is
      when it is answered; or from where it was at its `x`-th gap, and it may have moved since. */
  datatype Ask = Anew | Here | Again(x: nat)

  /** Subscribed at `i`, answered with the base at `j`, and sent up to each cut. */
  datatype Subscription = Subscription(
    i: nat, j: nat, cuts: seq<nat>, connected: nat -> bool, live: bool, ask: Ask)
  {
    function At(): nat { if cuts == [] then i else cuts[|cuts| - 1] }
  }

  ghost predicate Possible(stream: Stream, sub: Subscription) {
    sub.i <= sub.j <= |stream| && Rising(sub.cuts, sub.i, |stream|) && sub.i <= sub.At() <= |stream|
  }

  /** Where the phone's cursor is one of the stream's, it holds what the stream held there. */
  ghost predicate Known(stream: Stream, p: Phone) {
    && (p.held.Some? ==> p.held == p.store.cursor)
    && forall m :: 0 <= m <= |stream| && HeldAt(stream, m).Holding? && p.held == Some(HeldAt(stream, m).cursor) ==>
         StoreView(p.store) == HeldAt(stream, m)
  }

  function Since(p: Phone, ask: Ask): Option<Cursor> {
    match ask
    case Anew => None
    case Here => p.held
    case Again(x) => if x < |p.asked| then Some(p.asked[x]) else p.held
  }

  ghost function Answered(stream: Stream, p: Phone, sub: Subscription): Phone
    requires Possible(stream, sub)
  {
    var asking := if sub.ask.Anew? then p.(held := None) else p;
    Arrive(asking, Opening(Since(asking, sub.ask), HeldAt(stream, sub.j), sub.live))
  }

  ghost function EventsOf(stream: Stream, sub: Subscription): seq<Event>
    requires Possible(stream, sub)
  {
    SendAll(stream, sub.i, CursorOf(HeldAt(stream, sub.j)), sub.cuts, sub.connected).events
  }

  ghost function Follow(stream: Stream, p: Phone, sub: Subscription): Phone
    requires Possible(stream, sub)
  {
    ArriveAll(Answered(stream, p, sub), EventsOf(stream, sub))
  }

  /** It asks from where it was at a gap, and that is where the chat is. */
  predicate AtGap(p: Phone, ask: Ask, base: View) {
    ask.Again? && ask.x < |p.asked| && Some(p.asked[ask.x]) == CursorOf(base)
  }

  lemma AnsweredAtBase(stream: Stream, p: Phone, sub: Subscription)
    requires Possible(stream, sub) && Known(stream, p) && !HeldAt(stream, sub.j).Broken?
    requires !AtGap(p, sub.ask, HeldAt(stream, sub.j))
    ensures PhoneIs(Answered(stream, p, sub), HeldAt(stream, sub.j))
  {
    hide HeldAt;
    hide Rising;
  }

  /** An unchanged chat costs no snapshot: a phone that asks from where the chat is keeps its
      transcript, and any other is sent the chat's. */
  lemma UnchangedCostsNothing(stream: Stream, p: Phone, sub: Subscription)
    requires Possible(stream, sub)
    ensures var base := HeldAt(stream, sub.j);
      var since := if sub.ask.Anew? then None else Since(p, sub.ask);
      var store := Answered(stream, p, sub).store;
      if base.Holding? && since == CursorOf(base) then store.transcript == p.store.transcript
      else base.Holding? ==> store.transcript == Some(base.transcript) && !store.diverged
  {
    hide HeldAt;
    hide Rising;
  }

  lemma AtIsKnown(stream: Stream, p: Phone, m: nat)
    requires Forward(stream) && m <= |stream| && PhoneIs(p, HeldAt(stream, m))
    ensures Known(stream, p)
  {
    hide HeldAt;
    hide Between;
    forall n | 0 <= n <= |stream| && HeldAt(stream, n).Holding? && p.held == Some(HeldAt(stream, n).cursor)
      ensures StoreView(p.store) == HeldAt(stream, n)
    {
      if m <= n { assert Onward(HeldAt(stream, m), HeldAt(stream, n)); }
      if n <= m { assert Onward(HeldAt(stream, n), HeldAt(stream, m)); }
    }
  }

  /** Where the phone is after a subscription, and that it shows what the log names after every
      event of it. */
  ghost predicate Followed(stream: Stream, log: Log, p: Phone, sub: Subscription) {
    && Possible(stream, sub)
    && PhoneIs(Answered(stream, p, sub), HeldAt(stream, sub.j))
    && PhoneIs(Follow(stream, p, sub), PlaceOf(stream, sub))
    && Always(Answered(stream, p, sub), EventsOf(stream, sub), log)
  }

  ghost function PlaceOf(stream: Stream, sub: Subscription): View
    requires Possible(stream, sub)
  {
    Place(stream, sub.i, sub.j, sub.At())
  }

  /** Every subscription to a faithful stream that is answered at its base, however its sends cut the
      queue; and it asks again, if at all, from that base. */
  lemma PhoneFollows(stream: Stream, log: Log, p: Phone, sub: Subscription)
    requires M.Faithful(stream, log) && Possible(stream, sub)
    requires PhoneIs(Answered(stream, p, sub), HeldAt(stream, sub.j))
    ensures Followed(stream, log, p, sub)
    ensures AsksFrom(p, Follow(stream, p, sub), CursorOf(HeldAt(stream, sub.j)))
  {
    hide M.Faithful;
    hide HeldAt;
    hide PhoneAt;
    hide PhoneIs;
    hide Always;
    hide SendAll;
    hide ArriveAll;
    hide Rising;
    hide ServerAt;
    hide Place;
    assert Answered(stream, p, sub).asked == p.asked + [];
    assert p.asked + [] == p.asked;
    hide Arrive;
    WherePhoneIs(Answered(stream, p, sub), HeldAt(stream, sub.j));
    if HeldAt(stream, sub.j).Holding? {
      SendsFollow(stream, log, sub.i, sub.j, sub.cuts, sub.connected, Answered(stream, p, sub));
      PlaceHolds(stream, sub, Follow(stream, p, sub));
    } else {
      SendsFollowNothing(stream, log, sub.i, sub.j, sub.cuts, sub.connected, Answered(stream, p, sub));
      PlaceOfNothing(stream, log, sub);
    }
  }

  lemma WherePhoneIs(p: Phone, view: View)
    requires PhoneIs(p, view)
    ensures if view.Holding? then PhoneAt(p, view) else view == Nothing
  {}

  lemma PlaceHolds(stream: Stream, sub: Subscription, q: Phone)
    requires Possible(stream, sub) && PhoneAt(q, PlaceOf(stream, sub))
    ensures PhoneIs(q, PlaceOf(stream, sub))
  {}

  lemma PlaceOfNothing(stream: Stream, log: Log, sub: Subscription)
    requires M.Faithful(stream, log) && Possible(stream, sub) && HeldAt(stream, sub.j) == Nothing
    ensures PlaceOf(stream, sub) == HeldAt(stream, sub.At())
  {
    hide M.Faithful;
    hide HeldAt;
    if sub.At() < sub.j { HoldingStays(stream, log, sub.At(), sub.j); }
  }

  // What was asked from is where the phone was, but the phone may be elsewhere when it is answered.

  /** The cursor is one the stream had by `m`. */
  ghost predicate HadBy(stream: Stream, c: Cursor, m: nat) {
    exists b :: 0 <= b <= m && HasAt(stream, c, b)
  }

  ghost predicate HasAt(stream: Stream, c: Cursor, b: nat) {
    b <= |stream| && HeldAt(stream, b).Holding? && HeldAt(stream, b).cursor == c
  }

  /** Back at a cursor it had, the stream never left it. */
  lemma NeverMoved(stream: Stream, a: nat, b: nat, c: nat)
    requires Forward(stream) && a <= b <= c <= |stream| && HeldAt(stream, c).Holding?
    requires HasAt(stream, HeldAt(stream, c).cursor, a)
    ensures HeldAt(stream, b) == HeldAt(stream, c)
  {
    hide HeldAt;
    assert Between(HeldAt(stream, a), HeldAt(stream, b), HeldAt(stream, c));
    assert Onward(HeldAt(stream, a), HeldAt(stream, b)) && Onward(HeldAt(stream, b), HeldAt(stream, c));
  }

  /** The sends ended at a snapshot from before the base: the phone is further back than it was
      answered, with another transcript. */
  ghost predicate WentBack(stream: Stream, sub: Subscription)
    requires Possible(stream, sub)
  {
    && sub.At() < sub.j && SnapshotIn(stream, sub.i, sub.At())
    && HeldAt(stream, sub.At()).Holding? && HeldAt(stream, sub.j).Holding?
    && HeldAt(stream, sub.At()).transcript != HeldAt(stream, sub.j).transcript
  }

  /** After a run of subscriptions: where the phone is, and that all it asked from it had. */
  ghost predicate Ran(stream: Stream, p: Phone, subs: seq<Subscription>) {
    if subs == [] then Known(stream, p) && p.asked == []
    else
      var last := subs[|subs| - 1];
      && Possible(stream, last) && PhoneIs(p, PlaceOf(stream, last))
      && forall x :: 0 <= x < |p.asked| ==> HadBy(stream, p.asked[x], last.j)
  }

  /** The computer reads its queue and its transcript in order, so a later subscription begins where
      the one before was sent to, or further on, and its base is no older. */
  predicate InTurn(last: Subscription, sub: Subscription) {
    last.At() <= sub.i && last.j <= sub.j
  }

  /** The gap's place is the chat's, so the phone is told to resume there, but it went back. */
  ghost predicate Misled(stream: Stream, p: Phone, last: Subscription, sub: Subscription)
    requires Possible(stream, last) && Possible(stream, sub)
  {
    AtGap(p, sub.ask, HeldAt(stream, sub.j)) && WentBack(stream, last)
  }

  /** A phone that asks again is answered at the base unless it is resumed after going back. */
  lemma AnsweredExactly(stream: Stream, log: Log, p: Phone, subs: seq<Subscription>, sub: Subscription)
    requires M.Faithful(stream, log) && Possible(stream, sub) && Ran(stream, p, subs) && subs != []
    requires InTurn(subs[|subs| - 1], sub)
    ensures PhoneIs(Answered(stream, p, sub), HeldAt(stream, sub.j))
       <==> !Misled(stream, p, subs[|subs| - 1], sub)
  {
    assert Forward(stream);
    hide M.Faithful;
    hide HeldAt;
    hide Rising;
    hide Forward;
    hide HadBy;
    hide SnapshotIn;
    hide Place;
    var last, base := subs[|subs| - 1], HeldAt(stream, sub.j);
    NotBroken(stream, log, sub.j);
    var m := PlaceIs(stream, last);
    hide Answered;
    if AtGap(p, sub.ask, base) {
      hide PhoneIs;
      AskedAtBase(stream, p.asked[sub.ask.x], last.j, sub.j);
      WhereAgain(stream, log, last, m, sub.j);
      hide WentBack;
      Resumed(stream, p, sub, HeldAt(stream, m));
    } else {
      AtIsKnown(stream, p, m);
      AnsweredAtBase(stream, p, sub);
    }
  }

  /** Told to resume, the phone keeps its transcript. */
  lemma Resumed(stream: Stream, p: Phone, sub: Subscription, view: View)
    requires Possible(stream, sub) && PhoneIs(p, view) && view.Holding? && AtGap(p, sub.ask, HeldAt(stream, sub.j))
    ensures PhoneIs(Answered(stream, p, sub), HeldAt(stream, sub.j))
       <==> view.transcript == HeldAt(stream, sub.j).transcript
  {
    hide HeldAt;
    hide Rising;
  }

  /** The phone is at the base that was asked from, or went back. */
  lemma WhereAgain(stream: Stream, log: Log, last: Subscription, m: nat, j: nat)
    requires M.Faithful(stream, log) && Possible(stream, last) && m <= j <= |stream| && last.j <= j
    requires HeldAt(stream, j).Holding? && HeldAt(stream, last.j) == HeldAt(stream, j)
    requires m == last.At() || m == last.j
    requires m < last.j <==> last.At() < last.j && SnapshotIn(stream, last.i, last.At())
    ensures HeldAt(stream, m).Holding?
    ensures last.j <= m ==> HeldAt(stream, m) == HeldAt(stream, j)
    ensures WentBack(stream, last) <==> HeldAt(stream, m).transcript != HeldAt(stream, j).transcript
  {
    assert Forward(stream);
    hide M.Faithful;
    hide HeldAt;
    hide Rising;
    hide Forward;
    hide SnapshotIn;
    NotBroken(stream, log, m);
    if last.j <= m {
      assert HasAt(stream, HeldAt(stream, j).cursor, last.j);
      NeverMoved(stream, last.j, m, j);
    } else if HeldAt(stream, m) == Nothing {
      HoldingStays(stream, log, last.i, m);
    }
  }

  lemma NotBroken(stream: Stream, log: Log, m: nat)
    requires M.Faithful(stream, log) && m <= |stream|
    ensures !HeldAt(stream, m).Broken?
  {
    M.NamedAt(stream, log, m);
  }

  lemma AskedAtBase(stream: Stream, c: Cursor, j: nat, base: nat)
    requires Forward(stream) && j <= base <= |stream| && HeldAt(stream, base).Holding?
    requires c == HeldAt(stream, base).cursor && HadBy(stream, c, j)
    ensures HeldAt(stream, j) == HeldAt(stream, base) && HasAt(stream, c, j)
  {
    hide HeldAt;
    hide Forward;
    var b :| 0 <= b <= j && HasAt(stream, c, b);
    NeverMoved(stream, b, j, base);
  }

  lemma PlaceIs(stream: Stream, sub: Subscription) returns (m: nat)
    requires Possible(stream, sub)
    ensures m <= |stream| && PlaceOf(stream, sub) == HeldAt(stream, m) && (m == sub.At() || m == sub.j)
    ensures m < sub.j <==> sub.At() < sub.j && SnapshotIn(stream, sub.i, sub.At())
  {
    m := if CaughtUp(stream, sub.i, sub.j, sub.At()) then sub.At() else sub.j;
  }

  /** One more subscription of a run. */
  lemma NextFollows(stream: Stream, log: Log, p: Phone, subs: seq<Subscription>, sub: Subscription)
    requires M.Faithful(stream, log) && Possible(stream, sub) && Ran(stream, p, subs)
    requires subs != [] ==> InTurn(subs[|subs| - 1], sub) && !Misled(stream, p, subs[|subs| - 1], sub)
    ensures Followed(stream, log, p, sub) && Ran(stream, Follow(stream, p, sub), subs + [sub])
  {
    assert Forward(stream);
    hide M.Faithful;
    hide Forward;
    hide Possible;
    hide PhoneAt;
    hide PhoneIs;
    if subs == [] {
      NotBroken(stream, log, sub.j);
      AnsweredAtBase(stream, p, sub);
    } else {
      AnsweredExactly(stream, log, p, subs, sub);
    }
    hide Misled;
    hide Answered;
    PhoneFollows(stream, log, p, sub);
    AskedHad(stream, p, Follow(stream, p, sub), subs, sub);
  }

  lemma AskedHad(stream: Stream, p: Phone, q: Phone, subs: seq<Subscription>, sub: Subscription)
    requires Possible(stream, sub) && Ran(stream, p, subs) && (subs != [] ==> InTurn(subs[|subs| - 1], sub))
    requires AsksFrom(p, q, CursorOf(HeldAt(stream, sub.j)))
    ensures forall x :: 0 <= x < |q.asked| ==> HadBy(stream, q.asked[x], sub.j)
  {
    hide HeldAt;
    hide PhoneAt;
    hide PhoneIs;
    forall x | 0 <= x < |q.asked| ensures HadBy(stream, q.asked[x], sub.j) {
      if x < |p.asked| {
        assert HadBy(stream, p.asked[x], subs[|subs| - 1].j);
        var b :| 0 <= b <= subs[|subs| - 1].j && HasAt(stream, p.asked[x], b);
        assert HasAt(stream, q.asked[x], b);
      } else {
        assert HasAt(stream, q.asked[x], sub.j);
      }
    }
  }

  ghost predicate AllPossible(stream: Stream, subs: seq<Subscription>) {
    forall n :: 0 <= n < |subs| ==> Possible(stream, subs[n])
  }

  ghost function FollowAll(stream: Stream, p: Phone, subs: seq<Subscription>): Phone
    requires AllPossible(stream, subs)
  {
    if subs == [] then p
    else Follow(stream, FollowAll(stream, p, subs[..|subs| - 1]), subs[|subs| - 1])
  }

  /** The `n`-th subscription comes in turn and, if it asks again, is not resumed where the phone no
      longer is. */
  ghost predicate Steady(stream: Stream, p: Phone, subs: seq<Subscription>, n: nat)
    requires AllPossible(stream, subs) && 0 < n < |subs|
  {
    InTurn(subs[n - 1], subs[n]) && !Misled(stream, FollowAll(stream, p, subs[..n]), subs[n - 1], subs[n])
  }

  ghost predicate AllSteady(stream: Stream, p: Phone, subs: seq<Subscription>)
    requires AllPossible(stream, subs)
  {
    forall n :: 0 < n < |subs| ==> Steady(stream, p, subs, n)
  }

  /** Over every run of subscriptions, each asking from nothing, from where the phone is, or from where
      it was at any gap before. */
  lemma {:induction false} PhoneAlwaysFollows(stream: Stream, log: Log, p: Phone, subs: seq<Subscription>)
    requires M.Faithful(stream, log) && AllPossible(stream, subs) && AllSteady(stream, p, subs)
    requires Known(stream, p) && p.asked == []
    ensures Ran(stream, FollowAll(stream, p, subs), subs)
    ensures subs != [] ==>
      Followed(stream, log, FollowAll(stream, p, subs[..|subs| - 1]), subs[|subs| - 1])
  {
    hide M.Faithful;
    hide Possible;
    hide Followed;
    hide Follow;
    hide Misled;
    if subs != [] {
      hide Known;
      var n := |subs| - 1;
      SteadyBefore(stream, p, subs);
      PhoneAlwaysFollows(stream, log, p, subs[..n]);
      if n > 0 { assert Steady(stream, p, subs, n); }
      assert subs[..n] + [subs[n]] == subs;
      NextFollows(stream, log, FollowAll(stream, p, subs[..n]), subs[..n], subs[n]);
    }
  }

  lemma SteadyBefore(stream: Stream, p: Phone, subs: seq<Subscription>)
    requires AllPossible(stream, subs) && AllSteady(stream, p, subs) && subs != []
    ensures AllPossible(stream, subs[..|subs| - 1]) && AllSteady(stream, p, subs[..|subs| - 1])
  {
    hide Possible;
    hide Misled;
    hide FollowAll;
    var before := subs[..|subs| - 1];
    forall n | 0 < n < |before| ensures Steady(stream, p, before, n) {
      assert Steady(stream, p, subs, n);
      assert before[..n] == subs[..n];
    }
  }

  // ----- over a mirror's run

  /** The phone shows the server's transcript at the server's cursor. */
  ghost predicate Shows(p: Phone, cursor: Cursor, transcript: Transcript) {
    exists view :: PhoneAt(p, view) && view.cursor == cursor && D.Same(view.transcript, transcript)
  }

  lemma AtTheEnd(stream: Stream, p: Phone, sub: Subscription, cursor: Cursor, transcript: Transcript)
    requires Possible(stream, sub) && sub.At() == |stream|
    requires PhoneIs(Follow(stream, p, sub), PlaceOf(stream, sub))
    requires var view := Replay(Nothing, stream);
      view.Holding? && view.cursor == cursor && D.Same(view.transcript, transcript)
    ensures Shows(Follow(stream, p, sub), cursor, transcript)
  {
    hide Follow;
    assert stream[..|stream|] == stream;
  }

  /** Over every run of a mirror and every run of subscriptions to one of its clients: the phone shows
      what the one log names after every event, and once sent all that client was sent it shows the
      server's transcript at the server's cursor. */
  lemma PhoneShowsTheMirror(transcript: Transcript, pane: Option<Str>, epoch: nat, run: seq<M.Event>, conn: ConnId,
                            subs: seq<Subscription>, p: Phone)
    returns (log: Log)
    requires WellFormed(transcript) && M.LawfulRun(M.Start(transcript, pane, epoch), run)
    requires var server := M.Run(M.Start(transcript, pane, epoch), run);
      && conn in server.clients && subs != [] && Known(server.clients[conn], p) && p.asked == []
      && AllPossible(server.clients[conn], subs) && AllSteady(server.clients[conn], p, subs)
    ensures var server := M.Run(M.Start(transcript, pane, epoch), run);
      var stream, last := server.clients[conn], subs[|subs| - 1];
      var before := FollowAll(stream, p, subs[..|subs| - 1]);
      && M.Inv(server, log) && Followed(stream, log, before, last)
      && (last.At() == |stream| ==> Shows(Follow(stream, before, last), server.cursor, server.transcript))
  {
    hide M.Run;
    hide M.LawfulRun;
    hide WellFormed;
    hide Known;
    hide Possible;
    hide FollowAll;
    log := M.RunKeeps(transcript, pane, epoch, run);
    var server := M.Run(M.Start(transcript, pane, epoch), run);
    var stream, last := server.clients[conn], subs[|subs| - 1];
    assert M.Faithful(stream, log) && M.Caught(stream, server.cursor, server.transcript);
    hide M.Inv;
    hide M.Faithful;
    PhoneAlwaysFollows(stream, log, p, subs);
    var before := FollowAll(stream, p, subs[..|subs| - 1]);
    if last.At() == |stream| { AtTheEnd(stream, before, last, server.cursor, server.transcript); }
  }

  // ----- over a session's run, across reconnections of the computer

  /** One connection of the computer, of which it read the first `read` messages. */
  datatype Connection = Connection(x: S.Subscriber, read: nat)

  ghost predicate Connected(s: S.State, c: Connection) {
    (c.x in s.subscribers || c.x in s.closed) && c.read <= |c.x.stream|
  }

  ghost function LeftWith(c: Connection): View
    requires c.read <= |c.x.stream|
  {
    Replay(c.x.held, c.x.stream[..c.read])
  }

  /** Each connection resumes from what the one before left the computer with, the first from
      nothing. */
  ghost predicate Resuming(s: S.State, links: seq<Connection>) {
    forall n :: 0 <= n < |links| ==> Connected(s, links[n]) && ResumesAt(links, n)
  }

  ghost predicate ResumesAt(links: seq<Connection>, n: nat)
    requires n < |links|
  {
    if n == 0 then links[0].x.held == Nothing
    else links[n - 1].read <= |links[n - 1].x.stream| && links[n].x.held == LeftWith(links[n - 1])
  }

  /** Everything the computer read. */
  ghost function Joined(links: seq<Connection>): Stream
    requires forall n :: 0 <= n < |links| ==> links[n].read <= |links[n].x.stream|
  {
    if links == [] then []
    else
      var n := |links| - 1;
      Joined(links[..n]) + links[n].x.stream[..links[n].read]
  }

  /** The history as a log. */
  ghost function LogOf(epoch: nat, history: seq<Transcript>): Log {
    map k: nat | k < |history| :: Cursor(epoch, k) := history[k]
  }

  lemma LogOfHas(epoch: nat, history: seq<Transcript>)
    ensures forall k: nat :: k < |history| ==>
      Cursor(epoch, k) in LogOf(epoch, history) && LogOf(epoch, history)[Cursor(epoch, k)] == history[k]
  {}

  /** What the computer held was always the session's own, and once it held anything it did so on. */
  ghost predicate OwnAt(stream: Stream, a: nat, epoch: nat, history: seq<Transcript>)
    requires a <= |stream|
  {
    var view := HeldAt(stream, a);
    && S.Tracked(view, epoch, history)
    && (view.Holding? ==> view.cursor.epoch == epoch && Replay(Nothing, stream).Holding?)
  }

  ghost predicate Own(stream: Stream, epoch: nat, history: seq<Transcript>) {
    && M.Faithful(stream, LogOf(epoch, history))
    && forall a :: 0 <= a <= |stream| ==> OwnAt(stream, a, epoch, history)
  }

  lemma OwnIsNamed(view: View, epoch: nat, history: seq<Transcript>)
    requires S.Tracked(view, epoch, history) && (view.Holding? ==> view.cursor.epoch == epoch) && S.AllWell(history)
    ensures M.Named(view, LogOf(epoch, history))
  {
    LogOfHas(epoch, history);
    if view.Holding? { assert view.cursor == Cursor(epoch, view.cursor.seq_); }
  }

  /** A snapshot in turn is further on than all the computer held, or the same. */
  lemma InTurnIsAhead(stream: Stream, message: ServerMessage, epoch: nat, history: seq<Transcript>)
    requires Own(stream, epoch, history) && message.Snapshot? && S.InTurn(Replay(Nothing, stream), message, epoch)
    requires S.Tracked(Holding(message.cursor, message.transcript), epoch, history)
    ensures Ahead(stream, Holding(message.cursor, message.transcript))
  {
    var next := Holding(message.cursor, message.transcript);
    assert Forward(stream);
    hide M.Faithful;
    hide Onward;
    hide S.Tracked;
    assert stream[..|stream|] == stream;
    var last := HeldAt(stream, |stream|);
    assert last == Replay(Nothing, stream) && OwnAt(stream, |stream|, epoch, history);
    hide Replay;
    forall a | 0 <= a <= |stream| ensures AheadOf(stream, a, next) {
      assert OwnAt(stream, a, epoch, history) && Onward(HeldAt(stream, a), last);
      OnwardTo(HeldAt(stream, a), last, next, epoch, history);
    }
  }

  lemma OnwardTo(x: View, last: View, next: View, epoch: nat, history: seq<Transcript>)
    requires S.Tracked(x, epoch, history) && S.Tracked(next, epoch, history) && Onward(x, last)
    requires x.Holding? ==> x.cursor.epoch == epoch && last.Holding? && last.cursor.epoch == epoch
    requires next.Holding? && next.cursor.epoch == epoch
    requires last.Holding? && last.cursor.epoch == epoch ==> last.cursor.seq_ <= next.cursor.seq_
    ensures Onward(x, next)
  {}

  lemma OneRead(stream: Stream, message: ServerMessage, epoch: nat, history: seq<Transcript>)
    requires Own(stream, epoch, history) && S.AllWell(history)
    requires S.InTurn(Replay(Nothing, stream), message, epoch)
    requires S.Tracked(See(Replay(Nothing, stream), message), epoch, history)
    ensures Own(stream + [message], epoch, history)
  {
    hide Apply;
    hide M.Faithful;
    hide M.Named;
    hide LogOf;
    var longer := stream + [message];
    assert stream[..|stream|] == stream;
    assert OwnAt(stream, |stream|, epoch, history);
    var view, next := Replay(Nothing, stream), See(Replay(Nothing, stream), message);
    OwnIsNamed(next, epoch, history);
    if message.Snapshot? { InTurnIsAhead(stream, message, epoch, history); }
    M.Extend(stream, message, LogOf(epoch, history));
    HeldSnoc(stream, message);
    hide HeldAt;
    hide Replay;
    forall a | 0 <= a <= |longer| ensures OwnAt(longer, a, epoch, history) {
      if a <= |stream| { assert OwnAt(stream, a, epoch, history); }
    }
  }

  lemma {:induction false} ReadOn(stream: Stream, x: S.Subscriber, k: nat, epoch: nat, history: seq<Transcript>)
    requires Own(stream, epoch, history) && S.AllWell(history) && S.Trail(x, epoch, history)
    requires k <= |x.stream| && Replay(Nothing, stream) == x.held
    ensures Own(stream + x.stream[..k], epoch, history)
    ensures Replay(Nothing, stream + x.stream[..k]) == Replay(x.held, x.stream[..k])
  {
    hide Own;
    hide See;
    hide S.InTurn;
    hide S.Tracked;
    if k == 0 {
      assert stream + x.stream[..0] == stream;
      ReplayNothing(x.held);
      assert x.stream[..0] == [];
    } else {
      ReadOn(stream, x, k - 1, epoch, history);
      var read, message := stream + x.stream[..k - 1], x.stream[k - 1];
      assert S.InTurnAt(x, k - 1, epoch) && S.TrackedAt(x, k, epoch, history);
      assert x.stream[..k] == x.stream[..k - 1] + [message];
      ReplaySnoc(x.held, x.stream[..k - 1], message);
      OneRead(read, message, epoch, history);
      ReplaySnoc(Nothing, read, message);
      assert read + [message] == stream + x.stream[..k];
    }
  }

  lemma NothingRead(epoch: nat, history: seq<Transcript>)
    ensures Own([], epoch, history) && Replay(Nothing, []) == Nothing
  {
    M.FaithfulNil(LogOf(epoch, history));
  }

  /** Across any number of reconnections, what the computer read is one faithful stream. */
  lemma {:induction false} JoinedIsOwn(s: S.State, history: seq<Transcript>, links: seq<Connection>)
    requires S.Inv(s, history) && Resuming(s, links)
    ensures Own(Joined(links), s.epoch, history)
    ensures Replay(Nothing, Joined(links)) == if links == [] then Nothing else LeftWith(links[|links| - 1])
  {
    hide S.Inv;
    hide S.Trail;
    hide S.AllWell;
    hide Own;
    hide See;
    hide Replay;
    if links == [] {
      NothingRead(s.epoch, history);
    } else {
      var n := |links| - 1;
      ResumingBefore(s, links);
      hide Resuming;
      JoinedIsOwn(s, history, links[..n]);
      TrailOf(s, history, links[n]);
      ReadOn(Joined(links[..n]), links[n].x, links[n].read, s.epoch, history);
    }
  }

  lemma ResumingBefore(s: S.State, links: seq<Connection>)
    requires Resuming(s, links) && links != []
    ensures var n := |links| - 1;
      && Resuming(s, links[..n]) && Connected(s, links[n])
      && links[n].x.held == if n == 0 then Nothing else LeftWith(links[..n][n - 1])
  {
    hide Connected;
    hide LeftWith;
    var n := |links| - 1;
    forall m | 0 <= m < n ensures Connected(s, links[..n][m]) && ResumesAt(links[..n], m) {
      assert ResumesAt(links, m);
    }
    assert ResumesAt(links, n);
  }

  lemma TrailOf(s: S.State, history: seq<Transcript>, c: Connection)
    requires S.Inv(s, history) && Connected(s, c)
    ensures S.Trail(c.x, s.epoch, history) && S.AllWell(history)
  {
    hide S.LogOk;
    hide S.LogFits;
    hide S.Trail;
    hide S.AllWell;
  }

  /** Over every run of a live session, every run of the computer's connections to it, each resuming
      where the one before was cut off, and every run of a phone's subscriptions: the phone shows what
      the session's history names after every event, and once sent all the computer read, while it is
      connected and up to date, it shows the session's transcript at the session's cursor. */
  lemma PhoneShowsTheSession(
    epoch: nat, pane: Option<Str>, transcript: Transcript, ops: seq<S.Op>, links: seq<Connection>,
    subs: seq<Subscription>, p: Phone)
    returns (history: seq<Transcript>)
    requires WellFormed(transcript) && S.Bounded(transcript.entries)
    requires S.HonestRun(S.Start(epoch, pane, transcript), ops)
    requires Resuming(S.Run(S.Start(epoch, pane, transcript), ops), links) && links != [] && subs != []
    requires AllPossible(Joined(links), subs) && AllSteady(Joined(links), p, subs)
    requires Known(Joined(links), p) && p.asked == []
    ensures var s := S.Run(S.Start(epoch, pane, transcript), ops);
      var stream, link, last := Joined(links), links[|links| - 1], subs[|subs| - 1];
      var before := FollowAll(stream, p, subs[..|subs| - 1]);
      && S.Inv(s, history) && Followed(stream, LogOf(s.epoch, history), before, last)
      && (link.x in s.subscribers && link.read == |link.x.stream| && last.At() == |stream| ==>
            Shows(Follow(stream, before, last), s.At(), s.transcript))
  {
    hide S.Run;
    hide S.HonestRun;
    hide S.Bounded;
    hide WellFormed;
    hide Known;
    hide Possible;
    hide FollowAll;
    hide Joined;
    history := S.RunKeeps(S.Start(epoch, pane, transcript), ops);
    var s := S.Run(S.Start(epoch, pane, transcript), ops);
    var stream, link, last := Joined(links), links[|links| - 1], subs[|subs| - 1];
    JoinedIsOwn(s, history, links);
    if link.x in s.subscribers {
      assert S.CaughtUp(link.x, s.At(), s.transcript);
      assert link.x.stream[..|link.x.stream|] == link.x.stream;
    }
    hide S.Inv;
    hide M.Faithful;
    PhoneAlwaysFollows(stream, LogOf(s.epoch, history), p, subs);
    var before := FollowAll(stream, p, subs[..|subs| - 1]);
    if link.x in s.subscribers && link.read == |link.x.stream| && last.At() == |stream| {
      AtTheEnd(stream, before, last, s.At(), s.transcript);
    }
  }

  // ----- a phone resumed where it no longer is

  const ADDED := Entry(1, Agent([]))

  /** A chat that grew an entry, began a new epoch and grew it again. */
  function Restarted(t: Transcript): Stream {
    [Snapshot(Cursor(1, 0), t), Changed(Push(ADDED), Cursor(1, 1)),
     Snapshot(Cursor(2, 0), t), Changed(Push(ADDED), Cursor(2, 1))]
  }

  function Grown(t: Transcript): Transcript { t.(entries := [ADDED]) }

  function RestartedLog(t: Transcript): Log {
    map[Cursor(1, 0) := t, Cursor(1, 1) := Grown(t), Cursor(2, 0) := t, Cursor(2, 1) := Grown(t)]
  }

  lemma RestartedHeld(t: Transcript)
    requires t.entries == []
    ensures var stream := Restarted(t);
      && HeldAt(stream, 0) == Nothing && HeldAt(stream, 1) == Holding(Cursor(1, 0), t)
      && HeldAt(stream, 2) == Holding(Cursor(1, 1), Grown(t)) && HeldAt(stream, 3) == Holding(Cursor(2, 0), t)
      && HeldAt(stream, 4) == Holding(Cursor(2, 1), Grown(t))
  {
    var stream := Restarted(t);
    PushAfter(t, ADDED);
    assert t.entries + [ADDED] == [ADDED];
    hide Apply;
    assert stream[..0] == [];
    assert stream[..1] == stream[..0] + [stream[0]];
    assert stream[..2] == stream[..1] + [stream[1]];
    assert stream[..3] == stream[..2] + [stream[2]];
    assert stream[..4] == stream[..3] + [stream[3]];
    ReplayNothing(Nothing);
    hide Replay;
    ReplaySnoc(Nothing, stream[..0], stream[0]);
    ReplaySnoc(Nothing, stream[..1], stream[1]);
    ReplaySnoc(Nothing, stream[..2], stream[2]);
    ReplaySnoc(Nothing, stream[..3], stream[3]);
  }

  lemma RestartedIsFaithful(t: Transcript)
    requires WellFormed(t) && t.entries == []
    ensures M.Faithful(Restarted(t), RestartedLog(t))
  {
    var stream, log := Restarted(t), RestartedLog(t);
    RestartedHeld(t);
    PushAfter(t, ADDED);
    assert t.entries + [ADDED] == [ADDED];
    ApplyKeepsWellFormed(t, Push(ADDED));
    hide Apply;
    hide WellFormed;
    hide HeldAt;
    hide Replay;
    forall k | 0 <= k < |stream| ensures M.Usable(stream, k, log) {
      UsableHeld(stream, k);
    }
  }

  lemma UsableHeld(stream: Stream, k: nat)
    requires k < |stream|
    ensures Replay(Nothing, stream[..k]) == HeldAt(stream, k)
    ensures See(Replay(Nothing, stream[..k]), stream[k]) == HeldAt(stream, k + 1)
  {
    hide See;
    assert stream[..k + 1] == stream[..k] + [stream[k]];
    ReplaySnoc(Nothing, stream[..k], stream[k]);
  }

  /** Its first subscription is answered with the last of it, and sent the first change alone and then
      the new epoch alone; its second asks from where the link found the gap. */
  function Started(connected: nat -> bool, live: bool): Subscription {
    Subscription(1, 4, [2, 3], connected, live, Anew)
  }

  function AskedAgain(connected: nat -> bool, live: bool): Subscription {
    Subscription(3, 4, [], connected, live, Again(0))
  }

  lemma RestartedSubscriptions(t: Transcript, connected: nat -> bool, live: bool)
    requires t.entries == []
    ensures var stream, sub := Restarted(t), Started(connected, live);
      && Possible(stream, sub) && Possible(stream, AskedAgain(connected, live))
      && InTurn(sub, AskedAgain(connected, live))
      && WentBack(stream, sub) && PlaceOf(stream, sub) == HeldAt(stream, 3)
  {
    RestartedHeld(t);
    hide HeldAt;
    assert Restarted(t)[2].Snapshot?;
  }

  lemma FirstIsDropped(t: Transcript, connected: nat -> bool, p: Phone)
    requires p.held == Some(Cursor(2, 1))
    ensures var sent := SendAll(Restarted(t), 1, Some(Cursor(2, 1)), [2], connected);
      sent.held == Some(Cursor(1, 1)) && ArriveAll(p, sent.events).asked == p.asked + [Cursor(2, 1)]
  {
    hide ArriveAll;
    var stream, base, none := Restarted(t), Cursor(2, 1), SendAll(Restarted(t), 1, Some(Cursor(2, 1)), [], connected);
    assert none == Sent([], Some(base)) && [2][..0] == [];
    SendMore(stream, 1, Some(base), [2], connected);
    assert stream[1..2] == [Changed(Push(ADDED), Cursor(1, 1))];
    hide TakeAll;
    hide Messages;
    EarlySendIsDropped(p, base, Push(ADDED), Cursor(1, 1), connected(0));
    var m := Messages(TakeAll(Fresh(Some(base)), stream[1..2]), connected(0));
    assert [] + m == m;
  }

  /** The first of its sends is dropped, so the link asks again. */
  lemma RestartedAsks(t: Transcript, connected: nat -> bool, p: Phone)
    requires WellFormed(t) && t.entries == [] && PhoneAt(p, HeldAt(Restarted(t), 4))
    ensures var sent := SendAll(Restarted(t), 1, Some(Cursor(2, 1)), [2, 3], connected);
      var q := ArriveAll(p, sent.events);
      |q.asked| > |p.asked| && q.asked[|p.asked|] == Cursor(2, 1)
  {
    hide WellFormed;
    var stream, log, base := Restarted(t), RestartedLog(t), Cursor(2, 1);
    assert |stream| == 4;
    RestartedFirst(t, connected, p);
    hide M.Faithful;
    hide HeldAt;
    hide PhoneAt;
    hide Place;
    hide ServerAt;
    hide SendAll;
    hide ArriveAll;
    hide TakeAll;
    hide Messages;
    hide Always;
    hide Restarted;
    hide AsksFrom;
    var first := SendAll(stream, 1, Some(base), [2], connected);
    var q := ArriveAll(p, first.events);
    SecondSend(stream, Some(base), connected);
    OneSend(stream, log, 1, 4, 2, 3, first.held.value, q, connected(1));
    var m := Messages(TakeAll(Fresh(first.held), stream[2..3]), connected(1));
    ArriveConcat(p, first.events, m);
    AsksOn(p, q, ArriveAll(q, m), base);
  }

  /** After the first of the sends. */
  lemma RestartedFirst(t: Transcript, connected: nat -> bool, p: Phone)
    requires WellFormed(t) && t.entries == [] && PhoneAt(p, HeldAt(Restarted(t), 4))
    ensures var stream, base := Restarted(t), Cursor(2, 1);
      var first := SendAll(stream, 1, Some(base), [2], connected);
      var q := ArriveAll(p, first.events);
      && M.Faithful(stream, RestartedLog(t)) && HeldAt(stream, 4).Holding? && HeldAt(stream, 4).cursor == base
      && first.held.Some? && ServerAt(stream, 1, 4, 2, first.held.value)
      && PhoneAt(q, Place(stream, 1, 4, 2)) && q.asked == p.asked + [base]
  {
    hide WellFormed;
    RestartedHeld(t);
    RestartedIsFaithful(t);
    FirstIsDropped(t, connected, p);
    hide M.Faithful;
    hide HeldAt;
    hide Place;
    hide ServerAt;
    hide SendAll;
    hide ArriveAll;
    hide Always;
    hide AsksFrom;
    SendsFollow(Restarted(t), RestartedLog(t), 1, 4, [2], connected, p);
    hide Restarted;
    hide Rising;
  }

  lemma SecondSend(stream: Stream, base: Option<Cursor>, connected: nat -> bool)
    requires |stream| >= 3
    ensures var first := SendAll(stream, 1, base, [2], connected);
      SendAll(stream, 1, base, [2, 3], connected).events
      == first.events + Messages(TakeAll(Fresh(first.held), stream[2..3]), connected(1))
  {
    assert [2, 3][..1] == [2];
    SendMore(stream, 1, base, [2, 3], connected);
    hide SendAll;
    hide TakeAll;
    hide Messages;
  }

  lemma AsksOn(p: Phone, q: Phone, r: Phone, c: Cursor)
    requires q.asked == p.asked + [c] && AsksFrom(q, r, Some(c))
    ensures |r.asked| > |p.asked| && r.asked[|p.asked|] == c
  {}

  lemma ResumedElsewhere(t: Transcript, q: Phone, connected: nat -> bool, live: bool)
    requires t.entries == [] && PhoneAt(q, HeldAt(Restarted(t), 3))
    requires q.asked != [] && q.asked[0] == Cursor(2, 1)
    requires Possible(Restarted(t), AskedAgain(connected, live))
    ensures var r := Answered(Restarted(t), q, AskedAgain(connected, live));
      r.held == r.store.cursor == Some(Cursor(2, 1)) && r.store.transcript == Some(t)
  {
    RestartedHeld(t);
    hide HeldAt;
    hide Restarted;
  }

  lemma NotNamed(t: Transcript, r: Phone)
    requires t.entries == [] && r.store.cursor == Some(Cursor(2, 1)) && r.store.transcript == Some(t)
    ensures !PhoneNamed(r, RestartedLog(t))
  {
    hide WellFormed;
    forall view | PhoneAt(r, view) ensures !M.Named(view, RestartedLog(t)) {
      assert RestartedLog(t)[Cursor(2, 1)] == Grown(t);
    }
  }

  /** For every chat that starts empty, such a phone is told it is at the chat's cursor and shows what
      that cursor does not name. */
  lemma AskedAgainMisleads(t: Transcript, connected: nat -> bool, live: bool, p: Phone)
    requires WellFormed(t) && t.entries == [] && p.asked == []
    ensures var stream, log := Restarted(t), RestartedLog(t);
      var first, second := Started(connected, live), AskedAgain(connected, live);
      && M.Faithful(stream, log) && Possible(stream, first) && Possible(stream, second) && InTurn(first, second)
      && var q := Follow(stream, p, first); var r := Answered(stream, q, second);
      && Misled(stream, q, first, second)
      && r.held == Some(Cursor(2, 1)) && r.store.transcript == Some(t) && !PhoneNamed(r, log)
  {
    hide WellFormed;
    var stream, log := Restarted(t), RestartedLog(t);
    var first, second := Started(connected, live), AskedAgain(connected, live);
    RestartedHeld(t);
    RestartedIsFaithful(t);
    RestartedSubscriptions(t, connected, live);
    hide M.Faithful;
    hide HeldAt;
    hide WentBack;
    hide PlaceOf;
    hide Rising;
    hide SendAll;
    hide ArriveAll;
    hide PhoneNamed;
    hide Always;
    StartedAnswered(t, p, connected, live);
    hide Arrive;
    hide PhoneAt;
    hide Answered;
    PhoneFollows(stream, log, p, first);
    RestartedAsks(t, connected, Answered(stream, p, first));
    var q := Follow(stream, p, first);
    ResumedElsewhere(t, q, connected, live);
    NotNamed(t, Answered(stream, q, second));
  }

  lemma StartedAnswered(t: Transcript, p: Phone, connected: nat -> bool, live: bool)
    requires Possible(Restarted(t), Started(connected, live)) && HeldAt(Restarted(t), 4).Holding? && p.asked == []
    ensures var r := Answered(Restarted(t), p, Started(connected, live));
      r.asked == [] && PhoneAt(r, HeldAt(Restarted(t), 4))
  {
    hide HeldAt;
    hide Rising;
    hide Restarted;
  }
}
