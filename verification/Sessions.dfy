/** The chat's single owner (crates/sheprd-acp/src/session.rs): it applies each change, logs it
    for clients that reconnect, sends it to every subscriber, and keeps the transcript bounded. */
module Sessions {
  import opened Basics
  import opened Transcripts
  import opened Wire

  const LOG: nat := 8192
  const LOG_BYTES: nat := 32 * 1024 * 1024
  const MAX_ENTRIES: nat := 2000
  const MAX_TRANSCRIPT_TEXT: nat := 2 * 1024 * 1024
  const MAX_TRANSCRIPT_MEDIA: nat := 8 * 1024 * 1024

  // ----- how much an entry weighs

  function Total<T>(items: seq<T>, size: T -> nat): nat {
    if items == [] then 0 else size(items[0]) + Total(items[1..], size)
  }

  function OptionSize(text: Option<Str>): nat {
    if text.None? then 0 else |text.value|
  }

  function ContentSize(content: ToolContent): nat {
    match content
    case ContentText(text) => |text|
    case ContentDiff(new_, old_, path) => |new_| + OptionSize(old_) + |path|
    case ContentTerminal(id) => |id|
    case ContentImage(_) => 0
  }

  function ContentMedia(content: ToolContent): nat {
    if content.ContentImage? then |content.image.data| else 0
  }

  function EntrySize(entry: Entry): nat {
    match entry.kind
    case Notice(answers, details, _, text) => |text| + OptionSize(details) + AnswerBytes(answers)
    case ToolCall(tool) =>
      |tool.title| + Total(tool.locations, (l: Str) => |l|) + Total(tool.content, ContentSize)
    case Turned(_) => 32
    case Picture(_, _) => 0
    case User(text, _) => |text|
    case Agent(text) => |text|
    case Thought(text) => |text|
  }

  function EntryMedia(entry: Entry): nat {
    match entry.kind
    case Picture(_, image) => |image.data|
    case ToolCall(tool) => Total(tool.content, ContentMedia)
    case _ => 0
  }

  function ChangeSize(change: Change): nat {
    match change
    case Push(entry) => EntrySize(entry) + EntryMedia(entry)
    case Replace(entry) => EntrySize(entry) + EntryMedia(entry)
    case Append(_, text) => |text|
    case _ => 64
  }

  // ----- how many entries are kept

  /** Both byte budgets hold. */
  predicate InBudget(entries: seq<Entry>) {
    Total(entries, EntrySize) <= MAX_TRANSCRIPT_TEXT && Total(entries, EntryMedia) <= MAX_TRANSCRIPT_MEDIA
  }

  /** What a transcript may hold: the budgets and the count, or its newest entry alone. */
  predicate Bounded(entries: seq<Entry>) {
    |entries| <= MAX_ENTRIES && (|entries| <= 1 || InBudget(entries))
  }

  /** `keep_from`: the least number of oldest entries to drop. */
  function KeepFrom(entries: seq<Entry>): (drop: nat)
    ensures drop <= |entries| && (entries != [] ==> drop < |entries|)
    ensures Bounded(entries[drop..])
    ensures forall less :: 0 <= less < drop ==> !Bounded(entries[less..])
  {
    ShrinkFrom(entries, if |entries| > MAX_ENTRIES then |entries| - MAX_ENTRIES else 0)
  }

  function ShrinkFrom(entries: seq<Entry>, start: nat): (drop: nat)
    requires start <= |entries| && |entries| - start <= MAX_ENTRIES && (entries != [] ==> start < |entries|)
    ensures start <= drop <= |entries| && (entries != [] ==> drop < |entries|)
    ensures Bounded(entries[drop..])
    ensures forall less :: start <= less < drop ==> !Bounded(entries[less..])
    decreases |entries| - start
  {
    if !InBudget(entries[start..]) && start + 1 < |entries| then ShrinkFrom(entries, start + 1) else start
  }

  lemma {:induction false} TotalFrom<T>(items: seq<T>, size: T -> nat, n: nat)
    requires n < |items|
    ensures Total(items[n..], size) == size(items[n]) + Total(items[n + 1..], size)
  {
    assert items[n..][1..] == items[n + 1..];
  }

  /** The loop of `keep_from`, with its running sums. */
  method ComputeKeepFrom(entries: seq<Entry>) returns (drop: nat)
    ensures drop == KeepFrom(entries)
  {
    hide Total;
    hide EntrySize;
    hide EntryMedia;
    drop := if |entries| > MAX_ENTRIES then |entries| - MAX_ENTRIES else 0;
    var text, media := Total(entries[drop..], EntrySize), Total(entries[drop..], EntryMedia);
    while (text > MAX_TRANSCRIPT_TEXT || media > MAX_TRANSCRIPT_MEDIA) && drop + 1 < |entries|
      invariant drop <= |entries| && |entries| - drop <= MAX_ENTRIES && (entries != [] ==> drop < |entries|)
      invariant text == Total(entries[drop..], EntrySize) && media == Total(entries[drop..], EntryMedia)
      invariant KeepFrom(entries) == ShrinkFrom(entries, drop)
      decreases |entries| - drop
    {
      TotalFrom(entries, EntrySize, drop);
      TotalFrom(entries, EntryMedia, drop);
      text := text - EntrySize(entries[drop]);
      media := media - EntryMedia(entries[drop]);
      drop := drop + 1;
    }
  }

  // ----- the session

  datatype Logged = Logged(seq_: nat, change: Change)

  /** A subscriber: `stream` is all its outbox took since it attached holding `held`. */
  datatype Subscriber = Subscriber(conn: ConnId, local: bool, held: View, stream: Stream)

  /** `closed` keeps the subscribers that left or were dropped. */
  datatype State = State(
    epoch: nat, seq_: nat, log: seq<Logged>, logBytes: nat, subscribers: seq<Subscriber>, closed: set<Subscriber>,
    pane: Option<Str>, transcript: Transcript)
  {
    function At(): Cursor { Cursor(epoch, seq_) }
  }

  predicate IsContent(change: Change) { change.Push? || change.Append? || change.Replace? }

  function LogSize(log: seq<Logged>): nat { Total(log, (l: Logged) => ChangeSize(l.change)) }

  /** How many of the oldest logged changes go to make room for one of `size` bytes. */
  function Evicted(log: seq<Logged>, bytes: nat, size: nat): (n: nat)
    ensures n <= |log|
    decreases |log|
  {
    if log != [] && (|log| == LOG || bytes + size > LOG_BYTES) then
      var less := if bytes >= ChangeSize(log[0].change) then bytes - ChangeSize(log[0].change) else 0;
      1 + Evicted(log[1..], less, size)
    else 0
  }

  /** Applies and logs `change`, which fits. */
  function Accept(s: State, change: Change): State
    requires Apply(s.transcript, change).Fits?
  {
    var kept := s.log[Evicted(s.log, s.logBytes, ChangeSize(change))..];
    s.(transcript := Apply(s.transcript, change).t, seq_ := s.seq_ + 1,
       log := kept + [Logged(s.seq_ + 1, change)], logBytes := LogSize(kept) + ChangeSize(change))
  }

  /** The subscribers whose outboxes took `message`, the others dropped. */
  function Taking(subscribers: seq<Subscriber>, message: ServerMessage, fate: Fate, n: nat): (r: seq<Subscriber>)
    ensures |r| <= |subscribers|
    ensures |r| == |subscribers| ==> Remote(r) == Remote(subscribers)
  {
    if subscribers == [] then []
    else
      var last := subscribers[|subscribers| - 1];
      Taking(subscribers[..|subscribers| - 1], message, fate, n)
      + if fate(last.conn, n) then [last.(stream := last.stream + [message])] else []
  }

  function Remote(subscribers: seq<Subscriber>): nat {
    if subscribers == [] then 0
    else
      Remote(subscribers[..|subscribers| - 1]) + if subscribers[|subscribers| - 1].local then 0 else 1
  }

  function Deliver(s: State, message: ServerMessage, fate: Fate, n: nat): State {
    s.(subscribers := Taking(s.subscribers, message, fate, n),
       closed := s.closed + set x | x in s.subscribers && !fate(x.conn, n))
  }

  function AcceptAndSend(s: State, change: Change, fate: Fate): (r: State)
    requires Apply(s.transcript, change).Fits?
    ensures |r.subscribers| <= |s.subscribers|
    ensures |r.subscribers| == |s.subscribers| ==> Remote(r.subscribers) == Remote(s.subscribers)
  {
    var a := Accept(s, change);
    Deliver(a, Changed(change, a.At()), fate, a.seq_)
  }

  /** `emit`: a change, then what it makes necessary: dropping the oldest entries, and counting
      clients again when one was dropped. */
  function Emit(s: State, change: Change, fate: Fate): (r: State)
    ensures |r.subscribers| <= |s.subscribers|
    ensures |r.subscribers| == |s.subscribers| ==> Remote(r.subscribers) == Remote(s.subscribers)
    decreases IsContent(change), |s.subscribers|
  {
    if Apply(s.transcript, change).Refused? then s
    else
      var sent := AcceptAndSend(s, change, fate);
      var bound := if IsContent(change) then Bound(sent, fate) else sent;
      if Remote(bound.subscribers) != Remote(s.subscribers)
      then Emit(bound, SetClients(Remote(bound.subscribers)), fate)
      else bound
  }

  function Bound(s: State, fate: Fate): (r: State)
    ensures |r.subscribers| <= |s.subscribers|
    ensures |r.subscribers| == |s.subscribers| ==> Remote(r.subscribers) == Remote(s.subscribers)
    decreases true, |s.subscribers|, 0
  {
    var drop := KeepFrom(s.transcript.entries);
    if drop == 0 then s else Emit(s, Truncate(s.transcript.entries[drop].id), fate)
  }

  /** The logged changes after `since`, as the attach path filters them. */
  function After(log: seq<Logged>, since: nat): seq<Logged> {
    if log == [] then []
    else
      var last := log[|log| - 1];
      After(log[..|log| - 1], since) + if last.seq_ > since then [last] else []
  }

  function FirstLogged(s: State): nat { if s.log == [] then s.seq_ + 1 else s.log[0].seq_ }

  function ToMessages(epoch: nat, log: seq<Logged>): seq<ServerMessage> {
    seq(|log|, i requires 0 <= i < |log| => Changed(log[i].change, Cursor(epoch, log[i].seq_)))
  }

  predicate CanCatchUp(s: State, held: View) {
    && held.Holding? && held.cursor.epoch == s.epoch
    && held.cursor.seq_ <= s.seq_ && held.cursor.seq_ + 1 >= FirstLogged(s)
  }

  /** What a client that held `held`, and says so, is sent after the welcome. */
  function CatchUp(s: State, held: View): seq<ServerMessage> {
    if CanCatchUp(s, held) then ToMessages(s.epoch, After(s.log, held.cursor.seq_))
    else [Snapshot(s.At(), s.transcript)]
  }

  function WelcomeOf(s: State): ServerMessage { Welcome(s.transcript.details.agent, s.pane, VERSION) }

  /** `attach`: the outbox takes `room` messages, the welcome first. */
  function OnAttach(s: State, conn: ConnId, local: bool, held: View, room: nat, fate: Fate): State {
    var due := [WelcomeOf(s)] + CatchUp(s, held);
    if room < |due| then
      s.(closed := s.closed + {Subscriber(conn, local, held, due[..room])})
    else
      var joined := s.(subscribers := s.subscribers + [Subscriber(conn, local, held, due)]);
      if local then joined else Emit(joined, SetClients(Remote(joined.subscribers)), fate)
  }

  function Except(subscribers: seq<Subscriber>, conn: ConnId): seq<Subscriber> {
    if subscribers == [] then []
    else
      var last := subscribers[|subscribers| - 1];
      Except(subscribers[..|subscribers| - 1], conn) + if last.conn != conn then [last] else []
  }

  function OnDetach(s: State, conn: ConnId, fate: Fate): State {
    var left := s.(subscribers := Except(s.subscribers, conn),
                   closed := s.closed + set x | x in s.subscribers && x.conn == conn);
    if Remote(left.subscribers) != Remote(s.subscribers)
    then Emit(left, SetClients(Remote(left.subscribers)), fate)
    else left
  }

  // ----- what every run keeps

  /** A client is not broken, and a cursor of this epoch names `history`'s transcript. */
  ghost predicate Tracked(view: View, epoch: nat, history: seq<Transcript>) {
    && !view.Broken?
    && (view.Holding? && view.cursor.epoch == epoch ==>
          view.cursor.seq_ < |history| && view.transcript == history[view.cursor.seq_])
  }

  ghost predicate TrackedAt(x: Subscriber, k: nat, epoch: nat, history: seq<Transcript>)
    requires k <= |x.stream|
  {
    Tracked(Replay(x.held, x.stream[..k]), epoch, history)
  }

  /** A change is the one right after what the client holds, and a snapshot does not go back. */
  ghost predicate InTurn(before: View, message: ServerMessage, epoch: nat) {
    && (message.Changed? ==>
          before.Holding? && message.cursor == before.cursor.Next() && message.cursor.epoch == epoch)
    && (message.Snapshot? ==>
          && message.cursor.epoch == epoch
          && (before.Holding? && before.cursor.epoch == epoch ==> before.cursor.seq_ <= message.cursor.seq_))
  }

  ghost predicate InTurnAt(x: Subscriber, k: nat, epoch: nat)
    requires k < |x.stream|
  {
    InTurn(Replay(x.held, x.stream[..k]), x.stream[k], epoch)
  }

  /** Wherever the client stopped reading, it knew where it was, and every message came in turn. */
  ghost predicate Trail(x: Subscriber, epoch: nat, history: seq<Transcript>) {
    && (forall k :: 0 <= k <= |x.stream| ==> TrackedAt(x, k, epoch, history))
    && (forall k :: 0 <= k < |x.stream| ==> InTurnAt(x, k, epoch))
  }

  ghost predicate AllWell(history: seq<Transcript>) { forall k :: 0 <= k < |history| ==> WellFormed(history[k]) }

  ghost predicate CaughtUp(x: Subscriber, at: Cursor, transcript: Transcript) {
    Replay(x.held, x.stream) == Holding(at, transcript)
  }

  /** The log is the last changes, numbered without a gap, each one leading from one transcript of
      the history to the next. */
  ghost predicate LogOk(log: seq<Logged>, seq_: nat, history: seq<Transcript>) {
    && |log| <= seq_ < |history|
    && forall i :: 0 <= i < |log| ==> LoggedAt(log, i, seq_, history)
  }

  ghost predicate LoggedAt(log: seq<Logged>, i: nat, seq_: nat, history: seq<Transcript>)
    requires i < |log| <= seq_ < |history|
  {
    var k := seq_ - |log| + i;
    log[i].seq_ == k + 1 && Apply(history[k], log[i].change) == Fits(history[k + 1])
  }

  /** The log's own bounds; one change too large for them stays alone. */
  ghost predicate LogFits(log: seq<Logged>) {
    |log| <= LOG && (|log| <= 1 || LogSize(log) <= LOG_BYTES)
  }

  ghost predicate Inv(s: State, history: seq<Transcript>) {
    && |history| == s.seq_ + 1 && history[s.seq_] == s.transcript && AllWell(history)
    && LogOk(s.log, s.seq_, history) && s.logBytes == LogSize(s.log) && LogFits(s.log)
    && (forall x :: x in s.subscribers ==> Trail(x, s.epoch, history) && CaughtUp(x, s.At(), s.transcript))
    && (forall x :: x in s.closed ==> Trail(x, s.epoch, history))
  }

  lemma TrailGrows(x: Subscriber, epoch: nat, history: seq<Transcript>, next: Transcript)
    requires Trail(x, epoch, history)
    ensures Trail(x, epoch, history + [next])
  {
    forall k | 0 <= k <= |x.stream| ensures TrackedAt(x, k, epoch, history + [next]) {
      assert TrackedAt(x, k, epoch, history);
    }
  }

  lemma TrailMore(x: Subscriber, message: ServerMessage, epoch: nat, history: seq<Transcript>)
    requires Trail(x, epoch, history) && InTurn(Replay(x.held, x.stream), message, epoch)
    requires Tracked(See(Replay(x.held, x.stream), message), epoch, history)
    ensures Trail(x.(stream := x.stream + [message]), epoch, history)
    ensures Replay(x.held, x.stream + [message]) == See(Replay(x.held, x.stream), message)
  {
    var y := x.(stream := x.stream + [message]);
    ReplaySnoc(x.held, x.stream, message);
    forall k | 0 <= k <= |y.stream| ensures TrackedAt(y, k, epoch, history) {
      if k <= |x.stream| {
        assert y.stream[..k] == x.stream[..k];
        assert TrackedAt(x, k, epoch, history);
      } else {
        assert y.stream[..k] == y.stream;
      }
    }
    forall k | 0 <= k < |y.stream| ensures InTurnAt(y, k, epoch) {
      assert y.stream[..k] == x.stream[..k];
      if k < |x.stream| {
        assert InTurnAt(x, k, epoch);
      } else {
        assert x.stream[..k] == x.stream;
      }
    }
  }

  lemma {:induction false} TakingFrom(subscribers: seq<Subscriber>, message: ServerMessage, fate: Fate, n: nat)
    ensures forall y :: y in Taking(subscribers, message, fate, n) ==>
      exists x :: x in subscribers && y == x.(stream := x.stream + [message])
  {
    if subscribers != [] {
      var m := |subscribers| - 1;
      TakingFrom(subscribers[..m], message, fate, n);
      forall y | y in Taking(subscribers, message, fate, n)
        ensures exists x :: x in subscribers && y == x.(stream := x.stream + [message])
      {
        if y in Taking(subscribers[..m], message, fate, n) {
          var x :| x in subscribers[..m] && y == x.(stream := x.stream + [message]);
          assert x in subscribers;
        } else {
          assert subscribers[m] in subscribers;
        }
      }
    }
  }

  lemma {:induction false} EvictedFits(log: seq<Logged>, bytes: nat, size: nat)
    requires bytes == LogSize(log) && |log| <= LOG
    ensures var kept := log[Evicted(log, bytes, size)..];
      |kept| < LOG && (kept == [] || LogSize(kept) + size <= LOG_BYTES)
    decreases |log|
  {
    if log != [] && (|log| == LOG || bytes + size > LOG_BYTES) {
      var less := bytes - ChangeSize(log[0].change);
      EvictedFits(log[1..], less, size);
      var n := Evicted(log[1..], less, size);
      assert log[1..][n..] == log[n + 1..];
    } else {
      assert log[0..] == log;
    }
  }

  lemma AcceptLog(s: State, change: Change, history: seq<Transcript>)
    requires Inv(s, history) && Apply(s.transcript, change).Fits?
    ensures var a := Accept(s, change);
      LogOk(a.log, a.seq_, history + [a.transcript]) && a.logBytes == LogSize(a.log) && LogFits(a.log)
  {
    hide WellFormed;
    hide Trail;
    var a := Accept(s, change);
    var next := history + [a.transcript];
    var n := Evicted(s.log, s.logBytes, ChangeSize(change));
    forall i | 0 <= i < |a.log| ensures LoggedAt(a.log, i, a.seq_, next) {
      if i < |a.log| - 1 {
        assert LoggedAt(s.log, n + i, s.seq_, history);
      }
    }
    TotalSnoc(s.log[n..], Logged(s.seq_ + 1, change));
    EvictedFits(s.log, s.logBytes, ChangeSize(change));
  }

  lemma {:induction false} TotalSnoc(log: seq<Logged>, last: Logged)
    ensures LogSize(log + [last]) == LogSize(log) + ChangeSize(last.change)
  {
    if log == [] {
      assert log + [last] == [last];
    } else {
      assert (log + [last])[1..] == log[1..] + [last];
      TotalSnoc(log[1..], last);
    }
  }

  /** One change applied, logged and sent keeps every kept client at the session's transcript. */
  lemma AcceptAndSendKeeps(s: State, change: Change, fate: Fate, history: seq<Transcript>)
    requires Inv(s, history) && Apply(s.transcript, change).Fits?
    ensures Inv(AcceptAndSend(s, change, fate), history + [Apply(s.transcript, change).t])
    ensures AcceptAndSend(s, change, fate).epoch == s.epoch
  {
    hide WellFormed;
    hide LogOk;
    hide LogFits;
    hide Apply;
    hide Trail;
    hide CaughtUp;
    var a := Accept(s, change);
    var message := Changed(change, a.At());
    var r := AcceptAndSend(s, change, fate);
    var next := history + [a.transcript];
    AcceptLog(s, change, history);
    ApplyKeepsWellFormed(s.transcript, change);
    TakingFrom(s.subscribers, message, fate, a.seq_);
    forall y | y in r.subscribers ensures Trail(y, s.epoch, next) && CaughtUp(y, a.At(), a.transcript) {
      var x :| x in s.subscribers && y == x.(stream := x.stream + [message]);
      OneTakes(x, s.At(), s.transcript, change, history);
    }
    forall x | x in r.closed ensures Trail(x, s.epoch, next) {
      TrailGrows(x, s.epoch, history, a.transcript);
    }
  }

  lemma OneTakes(x: Subscriber, at: Cursor, t: Transcript, change: Change, history: seq<Transcript>)
    requires Trail(x, at.epoch, history) && CaughtUp(x, at, t) && Apply(t, change).Fits? && |history| == at.seq_ + 1
    ensures var y, u := x.(stream := x.stream + [Changed(change, at.Next())]), Apply(t, change).t;
      Trail(y, at.epoch, history + [u]) && CaughtUp(y, at.Next(), u)
  {
    hide Apply;
    hide Trail;
    hide Replay;
    var next := history + [Apply(t, change).t];
    TrailGrows(x, at.epoch, history, Apply(t, change).t);
    TrailMore(x, Changed(change, at.Next()), at.epoch, next);
  }

  lemma {:induction false} EmitKeeps(s: State, change: Change, fate: Fate, history: seq<Transcript>)
    returns (later: seq<Transcript>)
    requires Inv(s, history)
    ensures Inv(Emit(s, change, fate), later) && history <= later && Emit(s, change, fate).epoch == s.epoch
    ensures var r := Apply(s.transcript, change);
      if r.Refused? then later == history else |later| > |history| && later[|history|] == r.t
    decreases IsContent(change), |s.subscribers|
  {
    hide Inv;
    hide Apply;
    hide AcceptAndSend;
    hide Bound;
    hide Remote;
    later := history;
    if Apply(s.transcript, change).Fits? {
      AcceptAndSendKeeps(s, change, fate, history);
      var sent := AcceptAndSend(s, change, fate);
      later := history + [Apply(s.transcript, change).t];
      var bound := sent;
      if IsContent(change) {
        bound := Bound(sent, fate);
        later := BoundKeeps(sent, fate, later);
      }
      if Remote(bound.subscribers) != Remote(s.subscribers) {
        later := EmitKeeps(bound, SetClients(Remote(bound.subscribers)), fate, later);
      }
    }
  }

  lemma {:induction false} BoundKeeps(s: State, fate: Fate, history: seq<Transcript>)
    returns (later: seq<Transcript>)
    requires Inv(s, history)
    ensures Inv(Bound(s, fate), later) && history <= later && Bound(s, fate).epoch == s.epoch
    decreases true, |s.subscribers|, 0
  {
    hide Inv;
    var drop := KeepFrom(s.transcript.entries);
    later := history;
    if drop != 0 {
      later := EmitKeeps(s, Truncate(s.transcript.entries[drop].id), fate, history);
    }
  }

  lemma {:induction false} AfterIsSuffix(log: seq<Logged>, since: nat, n: nat)
    requires n <= |log|
    requires forall i :: 0 <= i < n ==> log[i].seq_ <= since
    requires forall i :: n <= i < |log| ==> log[i].seq_ > since
    ensures After(log, since) == log[n..]
    decreases |log|
  {
    if log != [] {
      var m := |log| - 1;
      if n <= m {
        AfterIsSuffix(log[..m], since, n);
        assert log[..m][n..] + [log[m]] == log[n..];
      } else {
        AfterIsSuffix(log[..m], since, m);
      }
    }
  }

  /** Missed change `i` leads from the transcript `i` after `base` to the next. */
  ghost predicate Leads(missed: seq<Logged>, i: nat, base: nat, history: seq<Transcript>)
    requires i < |missed| && base + |missed| < |history|
  {
    missed[i].seq_ == base + i + 1 && Apply(history[base + i], missed[i].change) == Fits(history[base + i + 1])
  }

  /** The missed changes are exactly those from the held transcript to the present one. */
  lemma MissedLead(log: seq<Logged>, seq_: nat, since: nat, history: seq<Transcript>)
    requires LogOk(log, seq_, history) && since <= seq_
    requires since + 1 >= if log == [] then seq_ + 1 else log[0].seq_
    ensures var missed := After(log, since);
      since + |missed| == seq_ && forall i :: 0 <= i < |missed| ==> Leads(missed, i, since, history)
  {
    hide Apply;
    if log != [] { assert LoggedAt(log, 0, seq_, history); }
    var n := |log| - (seq_ - since);
    LogNumbers(log, seq_, history);
    AfterIsSuffix(log, since, n);
    var missed := log[n..];
    forall i | 0 <= i < |missed| ensures Leads(missed, i, since, history) {
      assert LoggedAt(log, n + i, seq_, history);
      assert missed[i] == log[n + i];
    }
  }

  lemma LogNumbers(log: seq<Logged>, seq_: nat, history: seq<Transcript>)
    requires LogOk(log, seq_, history)
    ensures forall i :: 0 <= i < |log| ==> log[i].seq_ == seq_ - |log| + i + 1
  {
    forall i | 0 <= i < |log| ensures log[i].seq_ == seq_ - |log| + i + 1 {
      assert LoggedAt(log, i, seq_, history);
    }
  }

  lemma WelcomeTrail(
    conn: ConnId, local: bool, held: View, welcome: ServerMessage, epoch: nat, history: seq<Transcript>)
    requires welcome.Welcome? && Tracked(held, epoch, history)
    ensures Trail(Subscriber(conn, local, held, [welcome]), epoch, history)
    ensures Replay(held, [welcome]) == held
  {
    var x := Subscriber(conn, local, held, []);
    forall k | 0 <= k <= |x.stream| ensures TrackedAt(x, k, epoch, history) {
      assert x.stream[..k] == [];
    }
    assert Replay(held, []) == held;
    TrailMore(x, welcome, epoch, history);
    assert [] + [welcome] == [welcome];
  }

  /** Sent the first `n` changes it missed, a client holds the transcript `n` further on. */
  lemma {:induction false} CatchingUp(x: Subscriber, epoch: nat, missed: seq<Logged>, n: nat, history: seq<Transcript>)
    requires x.held.Holding? && x.held.cursor.epoch == epoch && n <= |missed|
    requires x.held.cursor.seq_ + |missed| < |history|
    requires forall i :: 0 <= i < |missed| ==> Leads(missed, i, x.held.cursor.seq_, history)
    requires x.held.transcript == history[x.held.cursor.seq_]
    requires Trail(x, epoch, history) && Replay(x.held, x.stream) == x.held
    ensures var y := x.(stream := x.stream + ToMessages(epoch, missed)[..n]);
      var k := x.held.cursor.seq_ + n;
      Trail(y, epoch, history) && Replay(y.held, y.stream) == Holding(Cursor(epoch, k), history[k])
  {
    hide Apply;
    hide Trail;
    hide Replay;
    var messages := ToMessages(epoch, missed);
    if n == 0 {
      assert x.stream + messages[..0] == x.stream;
    } else {
      CatchingUp(x, epoch, missed, n - 1, history);
      var y := x.(stream := x.stream + messages[..n - 1]);
      assert Leads(missed, n - 1, x.held.cursor.seq_, history);
      TrailMore(y, messages[n - 1], epoch, history);
      assert x.stream + messages[..n] == y.stream + [messages[n - 1]];
    }
  }

  /** Resuming: whoever holds what its cursor names, or nothing of this epoch, holds the session's
      transcript after the messages it is due, whatever the log has already forgotten. */
  lemma ResumeCatchesUp(s: State, conn: ConnId, local: bool, held: View, history: seq<Transcript>)
    requires Inv(s, history) && Tracked(held, s.epoch, history)
    ensures var x := Subscriber(conn, local, held, [WelcomeOf(s)] + CatchUp(s, held));
      Trail(x, s.epoch, history) && CaughtUp(x, s.At(), s.transcript)
  {
    hide Trail;
    WelcomeTrail(conn, local, held, WelcomeOf(s), s.epoch, history);
    var x := Subscriber(conn, local, held, [WelcomeOf(s)]);
    if CanCatchUp(s, held) {
      LoggedLead(s, held, history);
      hide Inv;
      hide WelcomeOf;
      hide Replay;
      hide After;
      hide Leads;
      var missed := After(s.log, held.cursor.seq_);
      CatchingUp(x, s.epoch, missed, |missed|, history);
      assert ToMessages(s.epoch, missed)[..|missed|] == ToMessages(s.epoch, missed);
    } else {
      SnapshotLead(s, held, history);
      hide Inv;
      hide Replay;
      TrailMore(x, Snapshot(s.At(), s.transcript), s.epoch, history);
    }
  }

  lemma LoggedLead(s: State, held: View, history: seq<Transcript>)
    requires Inv(s, history) && Tracked(held, s.epoch, history) && CanCatchUp(s, held)
    ensures var missed, since := After(s.log, held.cursor.seq_), held.cursor.seq_;
      && since + |missed| == s.seq_ < |history| && history[s.seq_] == s.transcript
      && held.transcript == history[since]
      && forall i :: 0 <= i < |missed| ==> Leads(missed, i, since, history)
  {
    hide WellFormed;
    hide Trail;
    hide LogOk;
    hide LogFits;
    MissedLead(s.log, s.seq_, held.cursor.seq_, history);
  }

  lemma SnapshotLead(s: State, held: View, history: seq<Transcript>)
    requires Inv(s, history) && Tracked(held, s.epoch, history)
    ensures Tracked(Holding(s.At(), s.transcript), s.epoch, history)
    ensures held.Holding? && held.cursor.epoch == s.epoch ==> held.cursor.seq_ <= s.seq_
  {
    hide WellFormed;
    hide Trail;
    hide LogOk;
    hide LogFits;
  }

  lemma TrailPrefix(x: Subscriber, room: nat, epoch: nat, history: seq<Transcript>)
    requires Trail(x, epoch, history) && room <= |x.stream|
    ensures Trail(x.(stream := x.stream[..room]), epoch, history)
  {
    var y := x.(stream := x.stream[..room]);
    forall k | 0 <= k <= |y.stream| ensures TrackedAt(y, k, epoch, history) {
      assert y.stream[..k] == x.stream[..k];
      assert TrackedAt(x, k, epoch, history);
    }
    forall k | 0 <= k < |y.stream| ensures InTurnAt(y, k, epoch) {
      assert y.stream[..k] == x.stream[..k];
      assert InTurnAt(x, k, epoch);
    }
  }

  lemma OnAttachKeeps(s: State, conn: ConnId, local: bool, held: View, room: nat, fate: Fate,
                      history: seq<Transcript>)
    returns (later: seq<Transcript>)
    requires Inv(s, history) && Tracked(held, s.epoch, history)
    ensures Inv(OnAttach(s, conn, local, held, room, fate), later) && history <= later
  {
    hide WellFormed;
    hide LogOk;
    hide LogFits;
    hide Trail;
    hide CaughtUp;
    hide Emit;
    ResumeCatchesUp(s, conn, local, held, history);
    var due := [WelcomeOf(s)] + CatchUp(s, held);
    var x := Subscriber(conn, local, held, due);
    later := history;
    if room < |due| {
      TrailPrefix(x, room, s.epoch, history);
    } else {
      var joined := s.(subscribers := s.subscribers + [x]);
      assert Inv(joined, history);
      if !local { later := EmitKeeps(joined, SetClients(Remote(joined.subscribers)), fate, history); }
    }
  }

  lemma {:induction false} ExceptFrom(subscribers: seq<Subscriber>, conn: ConnId)
    ensures forall x :: x in Except(subscribers, conn) ==> x in subscribers
  {
    if subscribers != [] { ExceptFrom(subscribers[..|subscribers| - 1], conn); }
  }

  lemma OnDetachKeeps(s: State, conn: ConnId, fate: Fate, history: seq<Transcript>)
    returns (later: seq<Transcript>)
    requires Inv(s, history)
    ensures Inv(OnDetach(s, conn, fate), later) && history <= later
  {
    hide WellFormed;
    hide LogOk;
    hide LogFits;
    hide Trail;
    hide CaughtUp;
    hide Emit;
    ExceptFrom(s.subscribers, conn);
    var left := s.(subscribers := Except(s.subscribers, conn),
                   closed := s.closed + set x | x in s.subscribers && x.conn == conn);
    assert Inv(left, history);
    later := history;
    if Remote(left.subscribers) != Remote(s.subscribers) {
      later := EmitKeeps(left, SetClients(Remote(left.subscribers)), fate, history);
    }
  }

  // ----- the transcript stays bounded

  lemma {:induction false} TotalSuffix<T>(items: seq<T>, size: T -> nat, n: nat)
    requires n <= |items|
    ensures Total(items[n..], size) <= Total(items, size)
  {
    if n == 0 {
      assert items[0..] == items;
    } else {
      TotalSuffix(items, size, n - 1);
      TotalFrom(items, size, n - 1);
    }
  }

  lemma BoundedSuffix(entries: seq<Entry>, n: nat)
    requires Bounded(entries) && n <= |entries|
    ensures Bounded(entries[n..])
  {
    TotalSuffix(entries, EntrySize, n);
    TotalSuffix(entries, EntryMedia, n);
  }

  /** What follows a change that is not content touches no entry. */
  lemma {:induction false} EmitEntries(s: State, change: Change, fate: Fate)
    requires !IsContent(change)
    ensures Emit(s, change, fate).transcript.entries
         == var r := Apply(s.transcript, change); if r.Refused? then s.transcript.entries else r.t.entries
    decreases |s.subscribers|
  {
    hide Apply;
    hide Remote;
    hide Taking;
    if Apply(s.transcript, change).Fits? {
      var sent := AcceptAndSend(s, change, fate);
      if Remote(sent.subscribers) != Remote(s.subscribers) {
        var count := SetClients(Remote(sent.subscribers));
        EmitEntries(sent, count, fate);
        CountKeepsEntries(sent.transcript, Remote(sent.subscribers));
      }
    }
  }

  lemma CountKeepsEntries(t: Transcript, count: nat)
    ensures Apply(t, SetClients(count)).Fits? && Apply(t, SetClients(count)).t.entries == t.entries
  {}

  lemma NonContent(t: Transcript, change: Change)
    requires !IsContent(change) && Apply(t, change).Fits?
    ensures change.Truncate? ==> Apply(t, change).t.entries == t.entries[LeadingBefore(t.entries, change.before)..]
    ensures !change.Truncate? ==> Apply(t, change).t.entries == t.entries
  {
    if change.Truncate? { ApplyTruncate(t, change.before); }
  }

  /** Dropping the oldest entries leaves exactly those `keep_from` names. */
  lemma BoundBounds(s: State, fate: Fate)
    requires Ordered(s.transcript.entries)
    ensures Bounded(Bound(s, fate).transcript.entries)
  {
    hide Emit;
    hide Bounded;
    var entries := s.transcript.entries;
    var drop := KeepFrom(entries);
    if drop == 0 {
      assert entries[0..] == entries;
    } else {
      var before := entries[drop].id;
      EmitEntries(s, Truncate(before), fate);
      ApplyTruncate(s.transcript, before);
      LeadingExactly(entries, drop);
    }
  }

  lemma LeadingExactly(entries: seq<Entry>, n: nat)
    requires Ordered(entries) && n < |entries|
    ensures LeadingBefore(entries, entries[n].id) == n
  {}

  /** After any change the transcript is within its budgets and count, or is its newest entry alone. */
  lemma EmitBounds(s: State, change: Change, fate: Fate)
    requires WellFormed(s.transcript) && Bounded(s.transcript.entries)
    ensures Bounded(Emit(s, change, fate).transcript.entries)
  {
    hide Apply;
    hide Bounded;
    hide Remote;
    if Apply(s.transcript, change).Refused? {
    } else if IsContent(change) {
      ApplyKeepsWellFormed(s.transcript, change);
      var sent := AcceptAndSend(s, change, fate);
      BoundBounds(sent, fate);
      var bound := Bound(sent, fate);
      var count := SetClients(Remote(bound.subscribers));
      EmitEntries(bound, count, fate);
      CountKeepsEntries(bound.transcript, Remote(bound.subscribers));
    } else {
      EmitEntries(s, change, fate);
      NonContent(s.transcript, change);
      if change.Truncate? {
        BoundedSuffix(s.transcript.entries, LeadingBefore(s.transcript.entries, change.before));
      }
    }
  }

  // ----- whole runs

  datatype Op =
    | DoEmit(change: Change, fate: Fate)
    | DoAttach(conn: ConnId, local: bool, held: View, room: nat, fate: Fate)
    | DoDetach(conn: ConnId, fate: Fate)

  function Start(epoch: nat, pane: Option<Str>, transcript: Transcript): State {
    State(epoch, 0, [], 0, [], {}, pane, transcript)
  }

  function Step(s: State, op: Op): State {
    match op
    case DoEmit(change, fate) => Emit(s, change, fate)
    case DoAttach(conn, local, held, room, fate) => OnAttach(s, conn, local, held, room, fate)
    case DoDetach(conn, fate) => OnDetach(s, conn, fate)
  }

  function Run(s: State, ops: seq<Op>): State {
    if ops == [] then s else Step(Run(s, ops[..|ops| - 1]), ops[|ops| - 1])
  }

  /** A client holds nothing, something of another epoch, or what this session's messages made of
      what it held before, wherever it stopped reading. */
  ghost predicate Honest(s: State, held: View) {
    || held.Nothing?
    || (held.Holding? && held.cursor.epoch != s.epoch)
    || exists x, k: nat ::
         (x in s.subscribers || x in s.closed) && k <= |x.stream| && held == Replay(x.held, x.stream[..k])
  }

  ghost predicate HonestRun(s: State, ops: seq<Op>) {
    forall k :: 0 <= k < |ops| && ops[k].DoAttach? ==> Honest(Run(s, ops[..k]), ops[k].held)
  }

  lemma HonestIsTracked(s: State, held: View, history: seq<Transcript>)
    requires Inv(s, history) && Honest(s, held)
    ensures Tracked(held, s.epoch, history)
  {
    hide WellFormed;
    hide LogOk;
    if (held.Holding? && held.cursor.epoch == s.epoch) || held.Broken? {
      var x, k: nat :|
        (x in s.subscribers || x in s.closed) && k <= |x.stream| && held == Replay(x.held, x.stream[..k]);
      assert TrackedAt(x, k, s.epoch, history);
    }
  }

  lemma StepKeeps(s: State, op: Op, history: seq<Transcript>) returns (later: seq<Transcript>)
    requires Inv(s, history) && (op.DoAttach? ==> Honest(s, op.held))
    ensures Inv(Step(s, op), later) && history <= later
  {
    hide Inv;
    match op
    case DoEmit(change, fate) => later := EmitKeeps(s, change, fate, history);
    case DoAttach(conn, local, held, room, fate) =>
      HonestIsTracked(s, held, history);
      later := OnAttachKeeps(s, conn, local, held, room, fate, history);
    case DoDetach(conn, fate) => later := OnDetachKeeps(s, conn, fate, history);
  }

  lemma StepBounds(s: State, op: Op)
    requires WellFormed(s.transcript) && Bounded(s.transcript.entries)
    ensures Bounded(Step(s, op).transcript.entries)
  {
    hide WellFormed;
    hide Bounded;
    hide Emit;
    match op
    case DoEmit(change, fate) => EmitBounds(s, change, fate);
    case DoAttach(conn, local, held, room, fate) =>
      var due := [WelcomeOf(s)] + CatchUp(s, held);
      var joined := s.(subscribers := s.subscribers + [Subscriber(conn, local, held, due)]);
      EmitBounds(joined, SetClients(Remote(joined.subscribers)), fate);
    case DoDetach(conn, fate) =>
      var left := s.(subscribers := Except(s.subscribers, conn),
                     closed := s.closed + set x | x in s.subscribers && x.conn == conn);
      EmitBounds(left, SetClients(Remote(left.subscribers)), fate);
  }

  lemma {:induction false} RunKeeps(start: State, ops: seq<Op>) returns (history: seq<Transcript>)
    requires start == Start(start.epoch, start.pane, start.transcript)
    requires WellFormed(start.transcript) && Bounded(start.transcript.entries) && HonestRun(start, ops)
    ensures Inv(Run(start, ops), history) && Bounded(Run(start, ops).transcript.entries)
  {
    if ops == [] {
      history := [start.transcript];
    } else {
      var before := ops[..|ops| - 1];
      forall k | 0 <= k < |before| && before[k].DoAttach? ensures Honest(Run(start, before[..k]), before[k].held) {
        assert before[..k] == ops[..k];
      }
      history := RunKeeps(start, before);
      StepBounds(Run(start, before), ops[|ops| - 1]);
      history := StepKeeps(Run(start, before), ops[|ops| - 1], history);
    }
  }

  /** Over every run, with outboxes failing at will and clients leaving and resuming wherever they
      stopped: one history gives every cursor of the epoch its transcript, every subscriber holds
      the session's own, the log is the history's unbroken end within its limits, and the
      transcript is within its budgets and count or is its newest entry alone. */
  lemma EveryRunResumes(epoch: nat, pane: Option<Str>, transcript: Transcript, ops: seq<Op>)
    requires WellFormed(transcript) && Bounded(transcript.entries)
    requires HonestRun(Start(epoch, pane, transcript), ops)
    ensures exists history :: Inv(Run(Start(epoch, pane, transcript), ops), history)
    ensures Bounded(Run(Start(epoch, pane, transcript), ops).transcript.entries)
  {
    var history := RunKeeps(Start(epoch, pane, transcript), ops);
  }

  // ----- the object itself

  /** The loop that pops the oldest logged changes, keeping the byte count. */
  method MakeRoom(log: seq<Logged>, bytes: nat, size: nat) returns (kept: seq<Logged>, left: nat)
    requires bytes == LogSize(log)
    ensures kept == log[Evicted(log, bytes, size)..] && left == LogSize(kept)
  {
    kept, left := log, bytes;
    var n := 0;
    while |kept| == LOG || (left + size > LOG_BYTES && kept != [])
      invariant n <= |log| && kept == log[n..] && left == LogSize(kept)
      invariant Evicted(log, bytes, size) == n + Evicted(kept, left, size)
      decreases |kept|
    {
      left := left - ChangeSize(kept[0].change);
      kept := kept[1..];
      n := n + 1;
    }
  }

  class Session {
    const epoch: nat
    const pane: Option<Str>
    var seq_: nat
    var log: seq<Logged>
    var logBytes: nat
    var subscribers: seq<Subscriber>
    var transcript: Transcript
    ghost var closed: set<Subscriber>

    ghost function Now(): State reads this {
      State(epoch, seq_, log, logBytes, subscribers, closed, pane, transcript)
    }

    /** The running byte count is the log's. */
    ghost predicate Valid() reads this { logBytes == LogSize(log) }

    constructor (epoch: nat, pane: Option<Str>, transcript: Transcript)
      ensures Valid() && Now() == Start(epoch, pane, transcript)
    {
      this.epoch, this.pane, seq_, log, logBytes := epoch, pane, 0, [], 0;
      subscribers, this.transcript, closed := [], transcript, {};
    }

    method Record(change: Change)
      requires Valid() && Apply(transcript, change).Fits?
      modifies this
      ensures Valid() && Now() == Accept(old(Now()), change)
    {
      transcript := Apply(transcript, change).t;
      seq_ := seq_ + 1;
      var size := ChangeSize(change);
      log, logBytes := MakeRoom(log, logBytes, size);
      TotalSnoc(log, Logged(seq_, change));
      logBytes := logBytes + size;
      log := log + [Logged(seq_, change)];
    }

    method Send(message: ServerMessage, fate: Fate, n: nat)
      modifies this`subscribers, this`closed
      ensures Now() == Deliver(old(Now()), message, fate, n)
    {
      closed := closed + set x | x in subscribers && !fate(x.conn, n);
      var kept: seq<Subscriber> := [];
      for i := 0 to |subscribers|
        invariant subscribers == old(subscribers)
        invariant kept == Taking(subscribers[..i], message, fate, n)
      {
        assert subscribers[..i + 1][..i] == subscribers[..i];
        if fate(subscribers[i].conn, n) {
          kept := kept + [subscribers[i].(stream := subscribers[i].stream + [message])];
        }
      }
      assert subscribers[..|subscribers|] == subscribers;
      subscribers := kept;
    }

    method EmitChange(change: Change, fate: Fate)
      requires Valid()
      modifies this
      ensures Valid() && Now() == Emit(old(Now()), change, fate)
      decreases IsContent(change), |subscribers|
    {
      if Apply(transcript, change).Refused? { return; }
      ghost var start := Now();
      var before := Remote(subscribers);
      Record(change);
      Send(Changed(change, Cursor(epoch, seq_)), fate, seq_);
      assert Now() == AcceptAndSend(start, change, fate);
      if IsContent(change) {
        ghost var sent := Now();
        var drop := ComputeKeepFrom(transcript.entries);
        if drop > 0 { EmitChange(Truncate(transcript.entries[drop].id), fate); }
        assert Now() == Bound(sent, fate);
      }
      if Remote(subscribers) != before {
        EmitChange(SetClients(Remote(subscribers)), fate);
      }
    }

    /** Sends the missed changes or a snapshot; the outbox takes `room` messages. */
    method Attach(conn: ConnId, local: bool, held: View, room: nat, fate: Fate)
      requires Valid()
      modifies this
      ensures Valid() && Now() == OnAttach(old(Now()), conn, local, held, room, fate)
    {
      var due := [Welcome(transcript.details.agent, pane, VERSION)];
      var first := if log == [] then seq_ + 1 else log[0].seq_;
      if held.Holding? && held.cursor.epoch == epoch && held.cursor.seq_ <= seq_ && held.cursor.seq_ + 1 >= first {
        var missed := Since(log, held.cursor.seq_);
        due := due + ToMessages(epoch, missed);
      } else {
        due := due + [Snapshot(Cursor(epoch, seq_), transcript)];
      }
      assert due == [WelcomeOf(Now())] + CatchUp(Now(), held);
      if room < |due| {
        closed := closed + {Subscriber(conn, local, held, due[..room])};
        return;
      }
      subscribers := subscribers + [Subscriber(conn, local, held, due)];
      if !local { EmitChange(SetClients(Remote(subscribers)), fate); }
    }

    method Detach(conn: ConnId, fate: Fate)
      requires Valid()
      modifies this
      ensures Valid() && Now() == OnDetach(old(Now()), conn, fate)
    {
      var before := Remote(subscribers);
      closed := closed + set x | x in subscribers && x.conn == conn;
      subscribers := Except(subscribers, conn);
      if Remote(subscribers) != before { EmitChange(SetClients(Remote(subscribers)), fate); }
    }
  }

  method Since(log: seq<Logged>, since: nat) returns (missed: seq<Logged>)
    ensures missed == After(log, since)
  {
    missed := [];
    for i := 0 to |log|
      invariant missed == After(log[..i], since)
    {
      assert log[..i + 1][..i] == log[..i];
      if log[i].seq_ > since { missed := missed + [log[i]]; }
    }
    assert log[..|log|] == log;
  }
}
