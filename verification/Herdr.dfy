/** The worker that reports to Herdr from a mailbox holding only the latest of each kind
    (crates/sheprd-acp/src/herdr.rs). Clock readings and what every call answers are inputs. */
module Herdr {
  import opened Basics

  type Text = string

  datatype Activity = Idle | Working | Blocked

  const TITLE_ATTEMPTS := 5

  datatype Mailbox = Mailbox(activity: Option<Activity>, closing: bool, prompt: Option<Text>)

  /** What is asked of Herdr; `again` marks the report repeated after taking the pane back, and a
      title carries which prompt it is of. Calls that only read are left out. */
  datatype Call =
    | ReportAgent(activity: Activity, again: bool, number: nat)
    | ClearAuthority(number: nat)
    | Announce(number: nat)
    | Title(text: Text, of_: nat, number: nat)
    | RenameTab(name: Text)
    | Withdraw(number: nat)
    | Release(number: nat)

  /** The naming rules and the chat's display name. */
  datatype Config = Config(
    display: Text, title: Text -> Option<Text>, labelOf: (Text, Text) -> Text,
    mayReplace: (Text, Text, Option<Text>) -> bool)

  datatype Tab = Tab(name: Text, panes: Option<nat>)
  /** What one iteration's clock and calls answer; a call that failed, or whose answer lacks the
      field it is read for, is `None` or false. */
  datatype Answers = Answers(
    clock: nat -> nat, reportOk: bool, claimed: Option<bool>, clearOk: bool, announceOk: bool,
    titleOk: bool, tab: Option<Tab>, renameOk: bool)

  datatype Worker = Worker(
    number: nat, reported: bool, announced: bool, given: Option<Text>, title: Option<(Text, nat)>,
    prompts: nat, trace: seq<Call>, done: bool)

  const START := Worker(0, false, false, None, None, 0, [], false)

  function Next(last: nat, now: nat): (n: nat)
    ensures n > last && n >= now && (n == now || n == last + 1)
  {
    if now > last + 1 then now else last + 1
  }

  function Sent(w: Worker, number: nat, call: Call): Worker { w.(number := number, trace := w.trace + [call]) }

  // ----- one iteration, stage by stage

  /** `report_state` */
  function ReportState(w: Worker, activity: Activity, a: Answers): Worker {
    var n := Next(w.number, a.clock(0));
    var first := Sent(w, n, ReportAgent(activity, false, n));
    if !a.reportOk || a.claimed != Some(true) then first
    else
      var m := Next(n, a.clock(1));
      var cleared := Sent(first, m, ClearAuthority(m));
      if !a.clearOk then cleared
      else
        var k := Next(m, a.clock(2));
        Sent(cleared, k, ReportAgent(activity, true, k))
  }

  function Report(w: Worker, activity: Option<Activity>, a: Answers): Worker {
    if activity.None? then w else ReportState(w, activity.value, a).(reported := true)
  }

  function AnnounceToken(w: Worker, closing: bool, a: Answers): Worker {
    if !w.reported || w.announced || closing then w
    else
      var n := Next(w.number, a.clock(3));
      Sent(w, n, Announce(n)).(announced := a.announceOk)
  }

  function TakePrompt(w: Worker, prompt: Option<Text>, c: Config): Worker {
    if prompt.None? || c.title(prompt.value).None? then w
    else w.(title := Some((c.title(prompt.value).value, 0)), prompts := w.prompts + 1)
  }

  /** `rename_tab`: whether the tab was renamed, and whether it has `name` afterwards. */
  function Rename(c: Config, given: Option<Text>, name: Text, alone: bool, a: Answers): (bool, Option<bool>) {
    if a.tab.None? then (false, None)
    else if a.tab.value.name == name then (false, Some(true))
    else if !c.mayReplace(a.tab.value.name, c.display, given) || (alone && a.tab.value.panes != Some(1))
    then (false, Some(false))
    else (true, if a.renameOk then Some(true) else None)
  }

  function SendTitle(w: Worker, closing: bool, c: Config, a: Answers): Worker {
    if !w.reported || closing || w.title.None? then w
    else
      var (latest, attempts) := w.title.value;
      var n := Next(w.number, a.clock(4));
      var sent := Sent(w, n, Title(latest, w.prompts, n));
      var name := c.labelOf(c.display, latest);
      var (called, named) := Rename(c, w.given, name, true, a);
      sent.(
        trace := sent.trace + if called then [RenameTab(name)] else [],
        given := if named == Some(true) then Some(name) else w.given,
        title := if !(a.titleOk && named.Some?) && attempts + 1 < TITLE_ATTEMPTS
                 then Some((latest, attempts + 1)) else None)
  }

  function Leave(w: Worker, closing: bool, c: Config, a: Answers): Worker {
    if !closing then w
    else
      var restored := if w.given.Some? && Rename(c, w.given, c.display, false, a).0
                      then w.(trace := w.trace + [RenameTab(c.display)]) else w;
      if !w.reported then restored.(done := true)
      else
        var n := Next(restored.number, a.clock(5));
        var m := Next(n, a.clock(6));
        Sent(Sent(restored, n, Withdraw(n)), m, Release(m)).(done := true)
  }

  function Work(w: Worker, box: Mailbox, c: Config, a: Answers): Worker {
    var titled := TakePrompt(AnnounceToken(Report(w, box.activity, a), box.closing, a), box.prompt, c);
    Leave(SendTitle(titled, box.closing, c, a), box.closing, c, a)
  }

  // ----- runs

  datatype State = State(box: Mailbox, worker: Worker)
  const BEGIN := State(Mailbox(None, false, None), START)

  datatype Step =
    | Post(activity: Activity)
    | PostPrompt(prompt: Text)
    | Close
    | Wake(answers: Answers)

  /** Whether the worker goes on when it wakes: there is mail, or something to send again. */
  predicate Awake(s: State) {
    && !s.worker.done
    && (s.box.activity.Some? || s.box.prompt.Some? || s.box.closing
        || (s.worker.reported && (!s.worker.announced || s.worker.title.Some?)))
  }

  function On(s: State, step: Step, c: Config): State {
    match step
    case Post(activity) => s.(box := s.box.(activity := Some(activity)))
    case PostPrompt(prompt) => s.(box := s.box.(prompt := Some(prompt)))
    case Close => s.(box := s.box.(closing := true))
    case Wake(answers) =>
      if !Awake(s) then s
      else State(Mailbox(None, s.box.closing, None), Work(s.worker, s.box, c, answers))
  }

  function Run(steps: seq<Step>, c: Config): State {
    if steps == [] then BEGIN else On(Run(steps[..|steps| - 1], c), steps[|steps| - 1], c)
  }

  // ----- sequence numbers only grow

  function NumberOf(call: Call): Option<nat> {
    if call.RenameTab? then None else Some(call.number)
  }

  /** The numbers of the calls rise strictly and none is above `top`. */
  predicate Rising(trace: seq<Call>, top: nat) {
    trace == [] ||
    (var n := |trace| - 1;
     var number := NumberOf(trace[n]);
     if number.None? then Rising(trace[..n], top)
     else 0 < number.value <= top && Rising(trace[..n], number.value - 1))
  }

  lemma {:induction false} RisingMeans(trace: seq<Call>, top: nat)
    requires Rising(trace, top)
    ensures forall i :: 0 <= i < |trace| && NumberOf(trace[i]).Some? ==> NumberOf(trace[i]).value <= top
    ensures forall i, j :: 0 <= i < j < |trace| && NumberOf(trace[i]).Some? && NumberOf(trace[j]).Some? ==>
      NumberOf(trace[i]).value < NumberOf(trace[j]).value
  {
    if trace != [] {
      var n := |trace| - 1;
      var number := NumberOf(trace[n]);
      RisingMeans(trace[..n], if number.None? then top else number.value - 1);
    }
  }

  lemma RisingSnoc(trace: seq<Call>, top: nat, call: Call, number: nat)
    requires Rising(trace, top) && NumberOf(call) == Some(number) && top < number
    ensures Rising(trace + [call], number)
  {
    assert (trace + [call])[..|trace|] == trace;
    RisingHigher(trace, top, number - 1);
  }

  lemma {:induction false} RisingHigher(trace: seq<Call>, top: nat, higher: nat)
    requires Rising(trace, top) && top <= higher
    ensures Rising(trace, higher)
  {
    if trace != [] && NumberOf(trace[|trace| - 1]).None? { RisingHigher(trace[..|trace| - 1], top, higher); }
  }

  lemma RisingName(trace: seq<Call>, top: nat, name: Text)
    requires Rising(trace, top)
    ensures Rising(trace + [RenameTab(name)], top)
  {
    assert (trace + [RenameTab(name)])[..|trace|] == trace;
  }

  // ----- titles are sent at most five times

  function Titles(trace: seq<Call>, of_: nat): nat {
    if trace == [] then 0
    else
      var last := trace[|trace| - 1];
      Titles(trace[..|trace| - 1], of_) + if last.Title? && last.of_ == of_ then 1 else 0
  }

  lemma TitlesSnoc(trace: seq<Call>, call: Call, of_: nat)
    ensures Titles(trace + [call], of_) == Titles(trace, of_) + if call.Title? && call.of_ == of_ then 1 else 0
  {
    assert (trace + [call])[..|trace|] == trace;
  }

  // ----- what every run keeps

  ghost predicate TitlesOk(w: Worker) {
    && (forall k :: Titles(w.trace, k) <= TITLE_ATTEMPTS)
    && (forall k :: k > w.prompts ==> Titles(w.trace, k) == 0)
    && (w.title.Some? ==> Titles(w.trace, w.prompts) == w.title.value.1 < TITLE_ATTEMPTS)
  }

  predicate Farewell(call: Call) { call.Withdraw? || call.Release? }

  ghost predicate NoFarewell(trace: seq<Call>) { forall i :: 0 <= i < |trace| ==> !Farewell(trace[i]) }

  /** The last two calls take the token, the title and the agent back, and no other does. */
  ghost predicate Withdrawn(trace: seq<Call>) {
    var n := |trace| - 2;
    n >= 0 && trace[n].Withdraw? && trace[n + 1].Release? && NoFarewell(trace[..n])
  }

  /** Withdrawn when anything was sent. */
  ghost predicate Left(trace: seq<Call>) { trace != [] ==> Withdrawn(trace) }

  /** Nothing is sent before a state report. */
  predicate ReportFirst(w: Worker) {
    && (w.reported <==> w.trace != []) && (w.trace != [] ==> w.trace[0].ReportAgent?)
    && (w.given.Some? ==> w.reported)
  }

  ghost predicate Inv(w: Worker) {
    && Rising(w.trace, w.number) && ReportFirst(w) && TitlesOk(w)
    && (if w.done then Left(w.trace) else NoFarewell(w.trace))
  }

  /** One more call that is neither a title nor a farewell. */
  lemma SentKeeps(w: Worker, number: nat, call: Call)
    requires Inv(w) && !w.done && NumberOf(call) == Some(number) && w.number < number
    requires !call.Title? && !Farewell(call) && (call.ReportAgent? || w.reported)
    ensures Inv(Sent(w, number, call).(reported := true))
  {
    hide Rising;
    hide Titles;
    RisingSnoc(w.trace, w.number, call, number);
    forall k ensures Titles(w.trace + [call], k) == Titles(w.trace, k) { TitlesSnoc(w.trace, call, k); }
  }

  lemma RenamedKeeps(w: Worker, name: Text)
    requires Inv(w) && !w.done && w.reported
    ensures Inv(w.(trace := w.trace + [RenameTab(name)]))
  {
    hide Rising;
    hide Titles;
    RisingName(w.trace, w.number, name);
    forall k ensures Titles(w.trace + [RenameTab(name)], k) == Titles(w.trace, k) {
      TitlesSnoc(w.trace, RenameTab(name), k);
    }
  }

  lemma ReportKeeps(w: Worker, activity: Option<Activity>, a: Answers)
    requires Inv(w) && !w.done
    ensures Inv(Report(w, activity, a)) && !Report(w, activity, a).done
  {
    hide Inv;
    if activity.Some? {
      var n := Next(w.number, a.clock(0));
      var first := ReportAgent(activity.value, false, n);
      SentKeeps(w, n, first);
      var w1 := Sent(w, n, first).(reported := true);
      var m := Next(n, a.clock(1));
      SentKeeps(w1, m, ClearAuthority(m));
      var w2 := Sent(w1, m, ClearAuthority(m));
      var k := Next(m, a.clock(2));
      SentKeeps(w2, k, ReportAgent(activity.value, true, k));
    }
  }

  lemma AnnounceKeeps(w: Worker, closing: bool, a: Answers)
    requires Inv(w) && !w.done
    ensures Inv(AnnounceToken(w, closing, a)) && !AnnounceToken(w, closing, a).done
  {
    if w.reported {
      var n := Next(w.number, a.clock(3));
      SentKeeps(w, n, Announce(n));
    }
  }

  lemma PromptKeeps(w: Worker, prompt: Option<Text>, c: Config)
    requires Inv(w) && !w.done
    ensures Inv(TakePrompt(w, prompt, c)) && !TakePrompt(w, prompt, c).done
  {
    hide Rising;
    hide Titles;
  }

  lemma TitleKeeps(w: Worker, closing: bool, c: Config, a: Answers)
    requires Inv(w) && !w.done
    ensures Inv(SendTitle(w, closing, c, a)) && !SendTitle(w, closing, c, a).done
  {
    hide Rising;
    hide Titles;
    hide Rename;
    if w.reported && !closing && w.title.Some? {
      var (latest, attempts) := w.title.value;
      var n := Next(w.number, a.clock(4));
      var call := Title(latest, w.prompts, n);
      var name := c.labelOf(c.display, latest);
      RisingSnoc(w.trace, w.number, call, n);
      RisingName(w.trace + [call], n, name);
      forall k ensures Titles(w.trace + [call], k) == Titles(w.trace, k) + if k == w.prompts then 1 else 0 {
        TitlesSnoc(w.trace, call, k);
      }
      forall k ensures Titles(w.trace + [call] + [RenameTab(name)], k) == Titles(w.trace + [call], k) {
        TitlesSnoc(w.trace + [call], RenameTab(name), k);
      }
      assert w.trace + [call] + [] == w.trace + [call];
    }
  }

  lemma FarewellKeeps(w: Worker, n: nat, m: nat)
    requires Inv(w) && !w.done && w.reported && w.number < n < m
    ensures Inv(Sent(Sent(w, n, Withdraw(n)), m, Release(m)).(done := true))
  {
    hide Rising;
    hide Titles;
    RisingSnoc(w.trace, w.number, Withdraw(n), n);
    var once := w.trace + [Withdraw(n)];
    RisingSnoc(once, n, Release(m), m);
    forall k ensures Titles(once + [Release(m)], k) == Titles(w.trace, k) {
      TitlesSnoc(w.trace, Withdraw(n), k);
      TitlesSnoc(once, Release(m), k);
    }
    assert (once + [Release(m)])[..|w.trace|] == w.trace;
  }

  lemma LeaveKeeps(w: Worker, closing: bool, c: Config, a: Answers)
    requires Inv(w) && !w.done
    ensures Inv(Leave(w, closing, c, a)) && (Leave(w, closing, c, a).done <==> closing)
  {
    hide Rename;
    hide Rising;
    hide Titles;
    if closing {
      if w.given.Some? { RenamedKeeps(w, c.display); }
      if w.reported {
        var n := Next(w.number, a.clock(5));
        var m := Next(n, a.clock(6));
        FarewellKeeps(w, n, m);
        if w.given.Some? { FarewellKeeps(w.(trace := w.trace + [RenameTab(c.display)]), n, m); }
      }
    }
  }

  lemma WorkKeeps(w: Worker, box: Mailbox, c: Config, a: Answers)
    requires Inv(w) && !w.done
    ensures Inv(Work(w, box, c, a)) && (Work(w, box, c, a).done <==> box.closing)
  {
    hide Inv;
    hide Report;
    hide AnnounceToken;
    hide TakePrompt;
    hide SendTitle;
    hide Leave;
    ReportKeeps(w, box.activity, a);
    var w1 := Report(w, box.activity, a);
    AnnounceKeeps(w1, box.closing, a);
    var w2 := AnnounceToken(w1, box.closing, a);
    PromptKeeps(w2, box.prompt, c);
    var w3 := TakePrompt(w2, box.prompt, c);
    TitleKeeps(w3, box.closing, c, a);
    LeaveKeeps(SendTitle(w3, box.closing, c, a), box.closing, c, a);
  }

  lemma {:induction false} RunKeeps(steps: seq<Step>, c: Config)
    ensures Inv(Run(steps, c).worker)
  {
    hide Work;
    if steps != [] {
      hide Inv;
      var n := |steps| - 1;
      RunKeeps(steps[..n], c);
      var s := Run(steps[..n], c);
      if steps[n].Wake? && Awake(s) { WorkKeeps(s.worker, s.box, c, steps[n].answers); }
    }
  }

  // ----- closing ends it

  /** The worker woke at step `k`, after closing was asked. */
  ghost predicate ClosedAt(steps: seq<Step>, k: nat) {
    k < |steps| && steps[k].Wake? && Close in steps[..k]
  }

  lemma {:induction false} ClosingEnds(steps: seq<Step>, c: Config)
    ensures Run(steps, c).box.closing <==> Close in steps
    ensures Run(steps, c).worker.done <==> exists k :: ClosedAt(steps, k)
  {
    hide Work;
    if steps != [] {
      var n := |steps| - 1;
      ClosingEnds(steps[..n], c);
      var s := Run(steps[..n], c);
      RunKeeps(steps[..n], c);
      if steps[n].Wake? && Awake(s) { WorkKeeps(s.worker, s.box, c, steps[n].answers); }
      forall k: nat ensures ClosedAt(steps, k) <==> ClosedAt(steps[..n], k) || (k == n && ClosedAt(steps, n)) {
        if k < n { assert steps[..n][..k] == steps[..k]; }
      }
      assert ClosedAt(steps, n) <==> steps[n].Wake? && s.box.closing;
      if s.worker.done {
        var k :| ClosedAt(steps[..n], k);
        assert ClosedAt(steps, k);
      }
    }
  }

  /** Whether a state report is among the calls. */
  ghost predicate Reported(trace: seq<Call>) { exists i :: 0 <= i < |trace| && trace[i].ReportAgent? }

  /** Over every run, with any clock, any failing calls and any interleaving of mail: sequence
      numbers strictly increase, the first call is a state report, and each prompt's title is sent
      at most five times. The worker is done exactly when it woke after closing was asked; done, it
      has withdrawn token, title and agent, last of all, if and only if it had reported, and until
      then it withdraws nothing. */
  lemma EveryRunReportsWell(steps: seq<Step>, c: Config)
    ensures var w := Run(steps, c).worker;
      && (forall i, j :: 0 <= i < j < |w.trace| && NumberOf(w.trace[i]).Some? && NumberOf(w.trace[j]).Some? ==>
            NumberOf(w.trace[i]).value < NumberOf(w.trace[j]).value)
      && (w.trace != [] ==> w.trace[0].ReportAgent?)
      && (forall k :: Titles(w.trace, k) <= TITLE_ATTEMPTS)
      && (w.done <==> exists k :: ClosedAt(steps, k))
      && (w.done ==> (Withdrawn(w.trace) <==> Reported(w.trace)))
      && (!w.done || !Reported(w.trace) ==> NoFarewell(w.trace))
  {
    RunKeeps(steps, c);
    ClosingEnds(steps, c);
    var w := Run(steps, c).worker;
    RisingMeans(w.trace, w.number);
    if w.trace != [] { assert w.trace[0].ReportAgent?; }
  }

  /** So whoever wakes after closing was asked has ended and withdrawn by then. */
  lemma WakingClosedEnds(steps: seq<Step>, c: Config, k: nat)
    requires k < |steps| && steps[k].Wake? && Close in steps[..k]
    ensures var w := Run(steps[..k + 1], c).worker; w.done && (Withdrawn(w.trace) <==> Reported(w.trace))
    ensures Run(steps, c).worker.trace == Run(steps[..k + 1], c).worker.trace
  {
    assert steps[..k + 1][..k] == steps[..k];
    assert ClosedAt(steps[..k + 1], k);
    EveryRunReportsWell(steps[..k + 1], c);
    DoneStays(steps, c, k + 1);
  }

  lemma {:induction false} DoneStays(steps: seq<Step>, c: Config, k: nat)
    requires k <= |steps| && Run(steps[..k], c).worker.done
    ensures Run(steps, c).worker == Run(steps[..k], c).worker
    decreases |steps|
  {
    if k == |steps| {
      assert steps[..k] == steps;
    } else {
      var n := |steps| - 1;
      assert steps[..n][..k] == steps[..k];
      DoneStays(steps[..n], c, k);
    }
  }

  // ----- what a wake sends

  /** The title an iteration has to send, if any. */
  function Titled(w: Worker, box: Mailbox, c: Config): Option<Text> {
    if box.prompt.Some? && c.title(box.prompt.value).Some? then c.title(box.prompt.value)
    else if w.title.Some? then Some(w.title.value.0)
    else None
  }

  lemma ReportCalls(w: Worker, activity: Option<Activity>, a: Answers) returns (calls: seq<Call>)
    ensures var r := Report(w, activity, a);
      && r == w.(number := r.number, reported := w.reported || activity.Some?, trace := w.trace + calls)
      && forall x :: x in calls ==> x.ReportAgent? || x.ClearAuthority?
  {
    var r := Report(w, activity, a);
    calls := r.trace[|w.trace|..];
  }

  lemma AnnounceCalls(w: Worker, a: Answers) returns (calls: seq<Call>)
    requires w.reported
    ensures var r := AnnounceToken(w, false, a);
      r == w.(number := r.number, announced := w.announced || a.announceOk, trace := w.trace + calls)
    ensures if w.announced then calls == [] else |calls| == 1 && calls[0].Announce?
  {
    calls := if w.announced then [] else [Announce(Next(w.number, a.clock(3)))];
    assert w.trace + [] == w.trace;
  }

  lemma TitleCalls(w: Worker, c: Config, a: Answers) returns (calls: seq<Call>)
    requires w.reported
    ensures var r := SendTitle(w, false, c, a);
      r.trace == w.trace + calls && r.announced == w.announced && r.reported
    ensures forall x :: x in calls ==> x.RenameTab? || (x.Title? && w.title.Some? && x.text == w.title.value.0)
    ensures w.title.Some? ==> calls != [] && calls[0].Title?
  {
    hide Rename;
    calls := SendTitle(w, false, c, a).trace[|w.trace|..];
  }

  /** Once anything is reported, a wake that is not closing announces until that succeeded, and
      sends the latest title that is due and no other. */
  lemma WakeSends(w: Worker, box: Mailbox, c: Config, a: Answers) returns (calls: seq<Call>)
    requires !box.closing && (w.reported || box.activity.Some?)
    ensures var r := Work(w, box, c, a);
      r.trace == w.trace + calls && r.reported && (r.announced <==> w.announced || a.announceOk)
    ensures (exists x :: x in calls && x.Announce?) <==> !w.announced
    ensures forall x :: x in calls && x.Title? ==> Titled(w, box, c) == Some(x.text)
    ensures Titled(w, box, c).Some? ==> exists x :: x in calls && x.Title?
  {
    hide Report;
    hide AnnounceToken;
    hide SendTitle;
    var one := ReportCalls(w, box.activity, a);
    var w1 := Report(w, box.activity, a);
    var two := AnnounceCalls(w1, a);
    var w3 := TakePrompt(AnnounceToken(w1, false, a), box.prompt, c);
    var three := TitleCalls(w3, c, a);
    calls := one + two + three;
    assert w.trace + one + two + three == w.trace + calls;
    if !w.announced { assert two[0] in calls; }
    if w3.title.Some? { assert three[0] in calls; }
  }

  /** The tab may be given `name`: it has another, one this chat may replace, and with `alone` no other
      pane. */
  predicate MayName(c: Config, given: Option<Text>, name: Text, alone: bool, a: Answers) {
    && a.tab.Some? && a.tab.value.name != name && c.mayReplace(a.tab.value.name, c.display, given)
    && (alone ==> a.tab.value.panes == Some(1))
  }

  /** The tab's name is read, and written where it may be, without a failure. */
  predicate NameSettled(c: Config, given: Option<Text>, name: Text, a: Answers) {
    a.tab.Some? && (MayName(c, given, name, true, a) ==> a.renameOk)
  }

  lemma RenameExactly(c: Config, given: Option<Text>, name: Text, alone: bool, a: Answers)
    ensures Rename(c, given, name, alone, a).0 <==> MayName(c, given, name, alone, a)
    ensures Rename(c, given, name, true, a).1.Some? <==> NameSettled(c, given, name, a)
    ensures Rename(c, given, name, alone, a).1 == Some(true) <==>
      a.tab.Some? && (a.tab.value.name == name || (MayName(c, given, name, alone, a) && a.renameOk))
  {}

  /** How often the due title was tried before. */
  function Tried(w: Worker, box: Mailbox, c: Config): nat {
    if (box.prompt.Some? && c.title(box.prompt.value).Some?) || w.title.None? then 0 else w.title.value.1
  }

  /** After a title was sent: it stays due, once more tried, exactly when its call or the tab's name
      failed and it was tried less than five times; and what this chat gave the tab is remembered
      exactly when the tab has it. */
  ghost predicate AfterTitle(r: Worker, text: Text, tried: nat, given: Option<Text>, c: Config, a: Answers) {
    var name := c.labelOf(c.display, text);
    var named := a.tab.Some? && (a.tab.value.name == name || (MayName(c, given, name, true, a) && a.renameOk));
    && r.title == (if !(a.titleOk && NameSettled(c, given, name, a)) && tried + 1 < TITLE_ATTEMPTS
                   then Some((text, tried + 1)) else None)
    && r.given == (if named then Some(name) else given)
  }

  /** What a title's turn sends: the title, and the tab's new name exactly when it may be renamed. */
  ghost function TitleTurn(text: Text, of_: nat, number: nat, given: Option<Text>, c: Config, a: Answers): seq<Call> {
    var name := c.labelOf(c.display, text);
    [Title(text, of_, number)] + if MayName(c, given, name, true, a) then [RenameTab(name)] else []
  }

  lemma TitleSent(w: Worker, c: Config, a: Answers)
    requires w.reported && w.title.Some?
    ensures var r := SendTitle(w, false, c, a);
      && AfterTitle(r, w.title.value.0, w.title.value.1, w.given, c, a)
      && r.trace == w.trace + TitleTurn(w.title.value.0, w.prompts, r.number, w.given, c, a)
  {
    RenameExactly(c, w.given, c.labelOf(c.display, w.title.value.0), true, a);
    hide Rename;
    hide MayName;
    hide NameSettled;
  }

  /** The title that is due is sent as soon as anything is reported, with its consequences; until then
      it waits. */
  lemma WakeTitles(w: Worker, box: Mailbox, c: Config, a: Answers) returns (before: seq<Call>)
    requires !box.closing
    ensures Titled(w, box, c).None? ==> Work(w, box, c, a).title.None? && Work(w, box, c, a).given == w.given
    ensures Titled(w, box, c).Some? ==>
      var r, text, tried := Work(w, box, c, a), Titled(w, box, c).value, Tried(w, box, c);
      if !w.reported && box.activity.None? then r.title == Some((text, tried)) && r.given == w.given
      else
        && AfterTitle(r, text, tried, w.given, c, a)
        && r.trace == w.trace + before + TitleTurn(text, r.prompts, r.number, w.given, c, a)
  {
    hide Report;
    hide AnnounceToken;
    hide SendTitle;
    hide AfterTitle;
    hide TitleTurn;
    var w1 := Report(w, box.activity, a);
    before := ReportCalls(w, box.activity, a);
    if w1.reported {
      var two := AnnounceCalls(w1, a);
      ConcatCalls(w.trace, before, two);
      before := before + two;
    } else {
      QuietBefore(w1, a);
    }
    var w2 := AnnounceToken(w1, false, a);
    var w3 := TakePrompt(w2, box.prompt, c);
    TitleOf(w, w2, box, c);
    if w3.reported && w3.title.Some? {
      TitleSent(w3, c, a);
      TitleKeepsCount(w3, c, a);
    } else {
      TitleWaits(w3, c, a);
    }
  }

  lemma ConcatCalls(a: seq<Call>, b: seq<Call>, c: seq<Call>)
    ensures a + b + c == a + (b + c)
  {}

  lemma TitleOf(w: Worker, w2: Worker, box: Mailbox, c: Config)
    requires w2.title == w.title && w2.given == w.given
    ensures var w3 := TakePrompt(w2, box.prompt, c);
      && w3.reported == w2.reported && w3.given == w.given && w3.trace == w2.trace
      && w3.title == if Titled(w, box, c).None? then None else Some((Titled(w, box, c).value, Tried(w, box, c)))
  {}

  lemma TitleKeepsCount(w: Worker, c: Config, a: Answers)
    ensures SendTitle(w, false, c, a).prompts == w.prompts
  {
    hide Rename;
  }

  lemma TitleWaits(w: Worker, c: Config, a: Answers)
    requires !w.reported || w.title.None?
    ensures SendTitle(w, false, c, a) == w
  {}

  lemma QuietBefore(w: Worker, a: Answers)
    requires !w.reported
    ensures AnnounceToken(w, false, a) == w
  {}

  /** A state is reported once, and again after the pane was taken back, exactly when another source
      holds it and letting go of that worked. */
  lemma ReportsAgain(w: Worker, activity: Activity, a: Answers) returns (n: nat, m: nat, k: nat)
    ensures ReportState(w, activity, a).trace == w.trace
      + [ReportAgent(activity, false, n)]
      + (if a.reportOk && a.claimed == Some(true) then [ClearAuthority(m)] else [])
      + (if a.reportOk && a.claimed == Some(true) && a.clearOk then [ReportAgent(activity, true, k)] else [])
    ensures n >= a.clock(0) && n > w.number
  {
    n := Next(w.number, a.clock(0));
    m := Next(n, a.clock(1));
    k := Next(m, a.clock(2));
  }

  /** Closing puts the display name back exactly when this chat named the tab and may still rename it,
      and sends no title and no announcement. */
  lemma LeavingRestores(w: Worker, box: Mailbox, c: Config, a: Answers) returns (calls: seq<Call>)
    requires box.closing
    ensures Work(w, box, c, a).trace == w.trace + calls
    ensures forall x :: x in calls ==> !x.Title? && !x.Announce?
    ensures (exists x :: x in calls && x.RenameTab?) <==> w.given.Some? && MayName(c, w.given, c.display, false, a)
    ensures forall x :: x in calls && x.RenameTab? ==> x.name == c.display
  {
    hide Report;
    hide Leave;
    var one := ReportCalls(w, box.activity, a);
    var w1 := Report(w, box.activity, a);
    var w3 := TakePrompt(w1, box.prompt, c);
    ClosingSkips(w1, box.prompt, c, a);
    hide AnnounceToken;
    hide SendTitle;
    hide TakePrompt;
    var rest := LeaveCalls(w3, c, a);
    ConcatCalls(w.trace, one, rest);
    calls := one + rest;
    if w.given.Some? && MayName(c, w.given, c.display, false, a) { assert rest[0] in calls; }
  }

  lemma ClosingSkips(w: Worker, prompt: Option<Text>, c: Config, a: Answers)
    ensures AnnounceToken(w, true, a) == w
    ensures SendTitle(TakePrompt(w, prompt, c), true, c, a) == TakePrompt(w, prompt, c)
    ensures TakePrompt(w, prompt, c).trace == w.trace && TakePrompt(w, prompt, c).given == w.given
  {}

  lemma LeaveCalls(w: Worker, c: Config, a: Answers) returns (calls: seq<Call>)
    ensures Leave(w, true, c, a).trace == w.trace + calls
    ensures var renames := w.given.Some? && MayName(c, w.given, c.display, false, a);
      && (renames ==> calls != [] && calls[0].RenameTab?)
      && forall x :: x in calls ==> Farewell(x) || (renames && x == RenameTab(c.display))
  {
    RenameExactly(c, w.given, c.display, false, a);
    hide Rename;
    hide MayName;
    var first := if w.given.Some? && MayName(c, w.given, c.display, false, a) then [RenameTab(c.display)] else [];
    var n := Next(w.number, a.clock(5));
    var m := Next(n, a.clock(6));
    var last := if w.reported then [Withdraw(n)] + [Release(m)] else [];
    calls := first + last;
    ConcatCalls(w.trace, first, last);
    ConcatCalls(w.trace + first, [Withdraw(n)], [Release(m)]);
    assert w.trace + [] == w.trace;
  }

  /** Without any mail the worker still sends again what failed, and otherwise does nothing. */
  lemma WakesToRetry(s: State, c: Config, a: Answers)
    requires s.box == Mailbox(None, false, None) && !s.worker.done
    ensures var r, w := On(s, Wake(a), c), s.worker;
      if w.reported && (!w.announced || w.title.Some?) then |r.worker.trace| > |w.trace| else r == s
  {
    hide Work;
    if s.worker.reported {
      var calls := WakeSends(s.worker, s.box, c, a);
    }
  }

  // ----- only superseded activities are lost

  /** The activities first reported, not those repeated after taking the pane back. */
  function Reports(trace: seq<Call>): seq<Activity> {
    if trace == [] then []
    else
      var last := trace[|trace| - 1];
      Reports(trace[..|trace| - 1]) + if last.ReportAgent? && !last.again then [last.activity] else []
  }

  lemma ReportsSnoc(trace: seq<Call>, call: Call)
    ensures Reports(trace + [call]) == Reports(trace) + if call.ReportAgent? && !call.again then [call.activity] else []
  {
    assert (trace + [call])[..|trace|] == trace;
  }

  function Only(activity: Option<Activity>): seq<Activity> {
    if activity.None? then [] else [activity.value]
  }

  lemma ReportReports(w: Worker, activity: Option<Activity>, a: Answers)
    ensures Reports(Report(w, activity, a).trace) == Reports(w.trace) + Only(activity)
  {
    hide Reports;
    if activity.Some? {
      var n := Next(w.number, a.clock(0));
      var m := Next(n, a.clock(1));
      var k := Next(m, a.clock(2));
      var t1 := w.trace + [ReportAgent(activity.value, false, n)];
      ReportsSnoc(w.trace, ReportAgent(activity.value, false, n));
      ReportsSnoc(t1, ClearAuthority(m));
      ReportsSnoc(t1 + [ClearAuthority(m)], ReportAgent(activity.value, true, k));
    }
  }

  lemma RestReportsNothing(w: Worker, closing: bool, prompt: Option<Text>, c: Config, a: Answers)
    ensures Reports(AnnounceToken(w, closing, a).trace) == Reports(w.trace)
    ensures Reports(TakePrompt(w, prompt, c).trace) == Reports(w.trace)
    ensures Reports(SendTitle(w, closing, c, a).trace) == Reports(w.trace)
  {
    hide Reports;
    hide Rename;
    ReportsSnoc(w.trace, Announce(Next(w.number, a.clock(3))));
    if w.title.Some? {
      var (latest, attempts) := w.title.value;
      var n := Next(w.number, a.clock(4));
      var call := Title(latest, w.prompts, n);
      ReportsSnoc(w.trace, call);
      ReportsSnoc(w.trace + [call], RenameTab(c.labelOf(c.display, latest)));
      assert w.trace + [call] + [] == w.trace + [call];
    }
  }

  lemma LeaveReportsNothing(w: Worker, closing: bool, c: Config, a: Answers)
    ensures Reports(Leave(w, closing, c, a).trace) == Reports(w.trace)
  {
    hide Reports;
    hide Rename;
    var n := Next(w.number, a.clock(5));
    var m := Next(n, a.clock(6));
    ReportsSnoc(w.trace, Withdraw(n));
    ReportsSnoc(w.trace + [Withdraw(n)], Release(m));
    var restored := w.trace + [RenameTab(c.display)];
    ReportsSnoc(w.trace, RenameTab(c.display));
    ReportsSnoc(restored, Withdraw(n));
    ReportsSnoc(restored + [Withdraw(n)], Release(m));
  }

  /** An iteration reports exactly the activity that was waiting. */
  lemma WorkReports(w: Worker, box: Mailbox, c: Config, a: Answers)
    ensures Reports(Work(w, box, c, a).trace) == Reports(w.trace) + Only(box.activity)
  {
    hide Reports;
    hide Report;
    hide AnnounceToken;
    hide TakePrompt;
    hide SendTitle;
    hide Leave;
    var w1 := Report(w, box.activity, a);
    var w2 := AnnounceToken(w1, box.closing, a);
    var w3 := TakePrompt(w2, box.prompt, c);
    ReportReports(w, box.activity, a);
    RestReportsNothing(w1, box.closing, box.prompt, c, a);
    RestReportsNothing(w2, box.closing, box.prompt, c, a);
    RestReportsNothing(w3, box.closing, box.prompt, c, a);
    LeaveReportsNothing(SendTitle(w3, box.closing, c, a), box.closing, c, a);
  }

  /** Every activity posted. */
  function Posted(steps: seq<Step>): seq<Activity> {
    if steps == [] then []
    else
      var last := steps[|steps| - 1];
      Posted(steps[..|steps| - 1]) + if last.Post? then [last.activity] else []
  }

  /** The posts since the worker last took its mail, and the groups it took before that: what an
      unbounded queue would hold. */
  datatype Queue = Queue(taken: seq<seq<Activity>>, waiting: seq<Activity>)

  function Queued(steps: seq<Step>, c: Config): Queue {
    if steps == [] then Queue([], [])
    else
      var before, last := steps[..|steps| - 1], steps[|steps| - 1];
      var q := Queued(before, c);
      if last.Post? then q.(waiting := q.waiting + [last.activity])
      else if last.Wake? && Awake(Run(before, c)) then Queue(q.taken + [q.waiting], [])
      else q
  }

  function Latest(group: seq<Activity>): Option<Activity> {
    if group == [] then None else Some(group[|group| - 1])
  }

  function AllLatest(groups: seq<seq<Activity>>): seq<Activity> {
    if groups == [] then [] else AllLatest(groups[..|groups| - 1]) + Only(Latest(groups[|groups| - 1]))
  }

  function Flat(groups: seq<seq<Activity>>): seq<Activity> {
    if groups == [] then [] else Flat(groups[..|groups| - 1]) + groups[|groups| - 1]
  }

  lemma GroupsSnoc(groups: seq<seq<Activity>>, last: seq<Activity>)
    ensures AllLatest(groups + [last]) == AllLatest(groups) + Only(Latest(last))
    ensures Flat(groups + [last]) == Flat(groups) + last
  {
    assert (groups + [last])[..|groups|] == groups;
  }

  /** The mailbox refines a queue that loses nothing: every activity posted is in a group the worker
      took or still waits, the worker reports exactly the latest of each group, and the latest that
      waits is in the mailbox. So only superseded activities are ever lost. */
  lemma {:induction false} OnlySupersededAreLost(steps: seq<Step>, c: Config)
    ensures var q, s := Queued(steps, c), Run(steps, c);
      && Posted(steps) == Flat(q.taken) + q.waiting
      && Reports(s.worker.trace) == AllLatest(q.taken)
      && s.box.activity == Latest(q.waiting)
  {
    hide Work;
    hide Reports;
    hide Flat;
    hide AllLatest;
    if steps == [] {
      NothingYet();
    } else {
      var before, last := steps[..|steps| - 1], steps[|steps| - 1];
      OnlySupersededAreLost(before, c);
      var q, s := Queued(before, c), Run(before, c);
      if last.Post? {
        assert Flat(q.taken) + q.waiting + [last.activity] == Flat(q.taken) + (q.waiting + [last.activity]);
      } else if last.Wake? && Awake(s) {
        GroupsSnoc(q.taken, q.waiting);
        WorkReports(s.worker, s.box, c, last.answers);
        assert Flat(q.taken) + q.waiting + [] == Flat(q.taken) + q.waiting;
      }
    }
  }

  lemma NothingYet()
    ensures Reports([]) == [] && Flat([]) == [] && AllLatest([]) == []
  {}

  // ----- the worker in place

  class Reporter {
    var activity: Option<Activity>
    var closing: bool
    var prompt: Option<Text>
    var number: nat
    var reported: bool
    var announced: bool
    var given: Option<Text>
    var title: Option<(Text, nat)>
    var prompts: nat
    var trace: seq<Call>
    var done: bool

    function Box(): Mailbox
      reads this
    {
      Mailbox(activity, closing, prompt)
    }

    function Progress(): Worker
      reads this
    {
      Worker(number, reported, announced, given, title, prompts, trace, done)
    }

    function Now(): State
      reads this
    {
      State(Box(), Progress())
    }

    constructor ()
      ensures Now() == BEGIN
    {
      activity, closing, prompt := None, false, None;
      number, reported, announced, given, title, prompts, trace, done := 0, false, false, None, None, 0, [], false;
    }

    method PostActivity(latest: Activity)
      modifies this`activity
      ensures forall c :: Now() == On(old(Now()), Post(latest), c)
    {
      activity := Some(latest);
    }

    method PostText(latest: Text)
      modifies this`prompt
      ensures forall c :: Now() == On(old(Now()), PostPrompt(latest), c)
    {
      prompt := Some(latest);
    }

    method BeginClosing()
      modifies this`closing
      ensures forall c :: Now() == On(old(Now()), Step.Close, c)
    {
      closing := true;
    }

    method NextNumber(now: nat) returns (n: nat)
      modifies this`number
      ensures n == number == Next(old(number), now)
    {
      number := if now > number + 1 then now else number + 1;
      n := number;
    }

    method SendState(latest: Activity, a: Answers)
      modifies this`number, this`trace
      ensures Progress() == ReportState(old(Progress()), latest, a)
    {
      var n := NextNumber(a.clock(0));
      trace := trace + [ReportAgent(latest, false, n)];
      if !a.reportOk || a.claimed != Some(true) { return; }
      n := NextNumber(a.clock(1));
      trace := trace + [ClearAuthority(n)];
      if !a.clearOk { return; }
      n := NextNumber(a.clock(2));
      trace := trace + [ReportAgent(latest, true, n)];
    }

    /** One turn of the worker's loop. */
    method Iterate(c: Config, a: Answers)
      modifies this
      ensures Now() == On(old(Now()), Wake(a), c)
    {
      hide ReportState;
      hide AnnounceToken;
      hide TakePrompt;
      hide SendTitle;
      hide Leave;
      if done || !(activity.Some? || prompt.Some? || closing || (reported && (!announced || title.Some?))) { return; }
      ghost var w, box := Progress(), Box();
      var latest, words := activity, prompt;
      activity, prompt := None, None;
      if latest.Some? {
        SendState(latest.value, a);
        reported := true;
      }
      assert Progress() == Report(w, box.activity, a);
      SendRest(words, c, a);
    }

    method SendRest(words: Option<Text>, c: Config, a: Answers)
      modifies this`number, this`announced, this`given, this`title, this`prompts, this`trace, this`done
      ensures Progress() ==
        Leave(SendTitle(TakePrompt(AnnounceToken(old(Progress()), closing, a), words, c), closing, c, a), closing, c, a)
    {
      hide AnnounceToken;
      hide SendTitle;
      hide Leave;
      AnnounceNow(a);
      if words.Some? && c.title(words.value).Some? {
        title := Some((c.title(words.value).value, 0));
        prompts := prompts + 1;
      }
      SendTitleNow(c, a);
      LeaveNow(c, a);
    }

    method AnnounceNow(a: Answers)
      modifies this`number, this`announced, this`trace
      ensures Progress() == AnnounceToken(old(Progress()), closing, a)
    {
      if reported && !announced && !closing {
        var n := NextNumber(a.clock(3));
        trace := trace + [Announce(n)];
        announced := a.announceOk;
      }
    }

    method SendTitleNow(c: Config, a: Answers)
      modifies this`number, this`given, this`title, this`trace
      ensures Progress() == SendTitle(old(Progress()), closing, c, a)
    {
      hide Rename;
      if reported && !closing && title.Some? {
        var (latest, attempts) := title.value;
        title := None;
        var n := NextNumber(a.clock(4));
        trace := trace + [Title(latest, prompts, n)];
        var name := c.labelOf(c.display, latest);
        var (called, named) := Rename(c, given, name, true, a);
        if called { trace := trace + [RenameTab(name)]; }
        if named == Some(true) { given := Some(name); }
        if !(a.titleOk && named.Some?) && attempts + 1 < TITLE_ATTEMPTS { title := Some((latest, attempts + 1)); }
      }
    }

    method LeaveNow(c: Config, a: Answers)
      modifies this`number, this`trace, this`done
      ensures Progress() == Leave(old(Progress()), closing, c, a)
    {
      hide Rename;
      if closing {
        if given.Some? {
          var (called, _) := Rename(c, given, c.display, false, a);
          if called { trace := trace + [RenameTab(c.display)]; }
        }
        if reported {
          var n := NextNumber(a.clock(5));
          trace := trace + [Withdraw(n)];
          n := NextNumber(a.clock(6));
          trace := trace + [Release(n)];
        }
        done := true;
      }
    }
  }
}
