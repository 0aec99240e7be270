/** The commands a phone sent that have not come back, and the chat drawn as if they had
    (ios/SheprdRemote/Pending.swift and SheprdRemoteCore's Chat/Expected.swift). */
module Pending {
  import opened Basics
  import opened Transcripts

  type Id = nat
  type PaneKey = Str

  datatype OptionValue = Choice(choice: Str) | Switch(on: bool)
  datatype Expected =
    | ToMode(mode: Str)
    | ToOption(option: Str, value: OptionValue)
    | ToAutoAccept(on: bool)
    | ToAnswer(permission: nat)
    | ToUnqueue(queued: nat)
  datatype Slot =
    | ModeSlot
    | OptionSlot(option: Str)
    | AutoAcceptSlot
    | AnswerSlot(permission: nat)
    | UnqueueSlot(queued: nat)
  datatype ChatCommand =
    | SetMode(mode: Str)
    | SetOption(option: Str, value: OptionValue)
    | SetAutoAccept(on: bool)
    | AnswerQuestion(permission: nat, answer: Str)
    | UnqueuePrompt(queued: nat)
    | SendPrompt(text: Str)
    | Cancel

  function Expects(command: ChatCommand): Option<Expected> {
    match command
    case SetMode(mode) => Some(ToMode(mode))
    case SetOption(option, value) => Some(ToOption(option, value))
    case SetAutoAccept(on) => Some(ToAutoAccept(on))
    case AnswerQuestion(permission, _) => Some(ToAnswer(permission))
    case UnqueuePrompt(queued) => Some(ToUnqueue(queued))
    case SendPrompt(_) => None
    case Cancel => None
  }

  function SlotOf(e: Expected): Slot {
    match e
    case ToMode(_) => ModeSlot
    case ToOption(option, _) => OptionSlot(option)
    case ToAutoAccept(_) => AutoAcceptSlot
    case ToAnswer(permission) => AnswerSlot(permission)
    case ToUnqueue(queued) => UnqueueSlot(queued)
  }

  // ----- the pending commands and what is still under way about them

  datatype Stage = Sending | SentOff | FailedWith(reason: Str)
  datatype Item = Item(id: Id, key: PaneKey, expected: Option<Expected>, stage: Stage)

  /** Besides the items: the replies still to come, and the timers still to fire. */
  datatype State = State(
    items: seq<Item>, next: Id, inflight: set<Id>, patience: multiset<Id>, remembered: multiset<Id>)

  const START := State([], 0, {}, multiset{}, multiset{})

  datatype Step =
    | Start(command: ChatCommand, key: PaneKey)
    | Reply(id: Id, failure: Option<Str>, shown: Item -> bool)
    | PatienceEnds(id: Id, reason: Str)
    | MemoryEnds(id: Id)
    | Settle(key: PaneKey, shown: Item -> bool)
    | Dismiss

  predicate SameSlot(item: Item, key: PaneKey, slot: Slot) {
    item.key == key && item.expected.Some? && SlotOf(item.expected.value) == slot
  }

  function Keep(items: seq<Item>, drop: Item -> bool): (r: seq<Item>)
    ensures forall x :: x in r <==> x in items && !drop(x)
  {
    if items == [] then []
    else
      var n := |items| - 1;
      Keep(items[..n], drop) + if drop(items[n]) then [] else [items[n]]
  }

  function IndexOf(items: seq<Item>, id: Id): (r: Option<nat>)
    ensures r.Some? ==> r.value < |items| && items[r.value].id == id
    ensures r.None? ==> forall x :: x in items ==> x.id != id
  {
    if items == [] then None
    else if items[0].id == id then Some(0)
    else
      var r := IndexOf(items[1..], id);
      if r.None? then None else Some(r.value + 1)
  }

  function Begin(s: State, command: ChatCommand, key: PaneKey): State {
    var expected := Expects(command);
    var kept :=
      if expected.None? then s.items
      else Keep(s.items, (x: Item) => SameSlot(x, key, SlotOf(expected.value)));
    s.(items := kept + [Item(s.next, key, expected, Sending)], next := s.next + 1, inflight := s.inflight + {s.next})
  }

  function Fail(s: State, id: Id, reason: Str): State {
    var i := IndexOf(s.items, id);
    if i.None? then s
    else s.(items := s.items[i.value := s.items[i.value].(stage := FailedWith(reason))],
            remembered := s.remembered + multiset{id})
  }

  /** `finished`, for a reply that was still to come. */
  function Finish(s0: State, id: Id, failure: Option<Str>, shown: Item -> bool): State {
    if id !in s0.inflight then s0
    else
      var s := s0.(inflight := s0.inflight - {id});
      var i := IndexOf(s.items, id);
      if i.None? then s
      else if failure.Some? then Fail(s, id, failure.value)
      else if s.items[i.value].expected.None? || shown(s.items[i.value]) then s.(items := Without(s.items, i.value))
      else s.(items := s.items[i.value := s.items[i.value].(stage := SentOff)], patience := s.patience + multiset{id})
  }

  function EndPatience(s0: State, id: Id, reason: Str): State {
    if s0.patience[id] == 0 then s0
    else
      var s := s0.(patience := s0.patience - multiset{id});
      var i := IndexOf(s.items, id);
      if i.None? || s.items[i.value].stage != SentOff then s else Fail(s, id, reason)
  }

  function EndMemory(s: State, id: Id): State {
    if s.remembered[id] == 0 then s
    else s.(items := Keep(s.items, (x: Item) => x.id == id && x.stage.FailedWith?),
            remembered := s.remembered - multiset{id})
  }

  function On(s: State, step: Step): State {
    match step
    case Start(command, key) => Begin(s, command, key)
    case Reply(id, failure, shown) => Finish(s, id, failure, shown)
    case PatienceEnds(id, reason) => EndPatience(s, id, reason)
    case MemoryEnds(id) => EndMemory(s, id)
    case Settle(key, shown) => s.(items := Keep(s.items, (x: Item) => x.key == key && x.stage != Sending && shown(x)))
    case Dismiss => s.(items := Keep(s.items, (x: Item) => x.stage.FailedWith?))
  }

  function Run(steps: seq<Step>): State {
    if steps == [] then START else On(Run(steps[..|steps| - 1]), steps[|steps| - 1])
  }

  // ----- what every run keeps

  ghost predicate Apart(a: Item, b: Item) {
    && a.id != b.id
    && (a.key == b.key && a.expected.Some? && b.expected.Some? ==> SlotOf(a.expected.value) != SlotOf(b.expected.value))
  }

  /** No two items are the same command, and no two of one chat are about the same slot. */
  ghost predicate OnePerSlot(items: seq<Item>) {
    forall i, j :: 0 <= i < j < |items| ==> Apart(items[i], items[j])
  }

  /** Whatever is not gone has a reply or a timer to come that moves it on. */
  ghost predicate Awaited(s: State, x: Item) {
    && x.id < s.next
    && (x.stage == Sending <==> x.id in s.inflight)
    && (x.stage == SentOff ==> s.patience[x.id] > 0)
    && (x.stage.FailedWith? ==> s.remembered[x.id] > 0)
  }

  ghost predicate Inv(s: State) {
    && OnePerSlot(s.items) && (forall x :: x in s.items ==> Awaited(s, x))
    && (forall id :: id in s.inflight || id in s.patience || id in s.remembered ==> id < s.next)
  }

  lemma {:induction false} KeepApart(items: seq<Item>, drop: Item -> bool)
    requires OnePerSlot(items)
    ensures OnePerSlot(Keep(items, drop))
  {
    hide Apart;
    if items != [] {
      var n := |items| - 1;
      KeepApart(items[..n], drop);
      var before := Keep(items[..n], drop);
      forall i | 0 <= i < |before| ensures Apart(before[i], items[n]) {
        assert before[i] in items[..n];
        var j :| 0 <= j < n && items[j] == before[i];
      }
    }
  }

  lemma IndexUnique(items: seq<Item>, i: nat)
    requires OnePerSlot(items) && i < |items|
    ensures IndexOf(items, items[i].id) == Some(i)
  {
    assert items[i] in items;
    forall j, k | 0 <= j < k < |items| ensures items[j].id != items[k].id { assert Apart(items[j], items[k]); }
  }

  /** Only the stage of one item changes. */
  lemma StageApart(items: seq<Item>, i: nat, stage: Stage)
    requires OnePerSlot(items) && i < |items|
    ensures OnePerSlot(items[i := items[i].(stage := stage)])
  {
    var after := items[i := items[i].(stage := stage)];
    forall j, k | 0 <= j < k < |after| ensures Apart(after[j], after[k]) { assert Apart(items[j], items[k]); }
  }

  lemma WithoutApart(items: seq<Item>, i: nat)
    requires OnePerSlot(items) && i < |items|
    ensures OnePerSlot(Without(items, i))
  {
    hide Apart;
  }

  lemma {:induction false} WithoutOthers(items: seq<Item>, i: nat, x: Item)
    requires OnePerSlot(items) && i < |items| && x in Without(items, i)
    ensures x in items && x.id != items[i].id
  {
    var j :| 0 <= j < |items| - 1 && Without(items, i)[j] == x;
    if j < i {
      assert items[j] == x && Apart(items[j], items[i]);
    } else {
      assert items[j + 1] == x && Apart(items[i], items[j + 1]);
    }
  }

  lemma BeginKeeps(s: State, command: ChatCommand, key: PaneKey)
    requires Inv(s)
    ensures Inv(Begin(s, command, key))
  {
    var t := Begin(s, command, key);
    var expected := Expects(command);
    var n := |t.items| - 1;
    var kept := t.items[..n];
    if expected.Some? { KeepApart(s.items, (x: Item) => SameSlot(x, key, SlotOf(expected.value))); }
    assert OnePerSlot(kept) && t.items == kept + [t.items[n]];
    forall i | 0 <= i < n ensures Apart(t.items[i], t.items[n]) {
      assert kept[i] in kept && kept[i] in s.items && Awaited(s, kept[i]);
    }
    forall x | x in t.items ensures Awaited(t, x) {
      if x in kept { assert x in s.items && Awaited(s, x); }
    }
  }

  lemma FinishKeeps(s: State, id: Id, failure: Option<Str>, shown: Item -> bool)
    requires Inv(s)
    ensures Inv(Finish(s, id, failure, shown))
  {
    var t := Finish(s, id, failure, shown);
    var i := IndexOf(s.items, id);
    if id in s.inflight {
      if i.Some? {
        StageApart(s.items, i.value, SentOff);
        if failure.Some? { StageApart(s.items, i.value, FailedWith(failure.value)); }
        WithoutApart(s.items, i.value);
      }
      forall x | x in t.items ensures Awaited(t, x) {
        if i.Some? && x.id != id { StillThere(s.items, t.items, i.value, x); }
        if i.Some? && x.id == id && x in Without(s.items, i.value) { WithoutOthers(s.items, i.value, x); }
      }
    }
  }

  lemma StillThere(items: seq<Item>, after: seq<Item>, i: nat, x: Item)
    requires i < |items| && x in after && x.id != items[i].id
    requires after == Without(items, i) || (exists stage :: after == items[i := items[i].(stage := stage)])
    ensures x in items
  {
    var j :| 0 <= j < |after| && after[j] == x;
    if after == Without(items, i) { assert x == items[if j < i then j else j + 1]; }
  }

  lemma ById(items: seq<Item>, i: nat, x: Item)
    requires OnePerSlot(items) && i < |items| && x in items && x.id == items[i].id
    ensures x == items[i]
  {
    var j :| 0 <= j < |items| && items[j] == x;
    IndexUnique(items, i);
    IndexUnique(items, j);
  }

  lemma EndPatienceKeeps(s: State, id: Id, reason: Str)
    requires Inv(s)
    ensures Inv(EndPatience(s, id, reason))
  {
    hide Apart;
    hide OnePerSlot;
    var t := EndPatience(s, id, reason);
    var i := IndexOf(s.items, id);
    if s.patience[id] > 0 && i.Some? && s.items[i.value].stage == SentOff {
      StageApart(s.items, i.value, FailedWith(reason));
      forall x | x in t.items ensures Awaited(t, x) {
        if x.id == id {
          assert Awaited(s, s.items[i.value]);
          ById(t.items, i.value, x);
        } else {
          StillThere(s.items, t.items, i.value, x);
          assert Awaited(s, x);
        }
      }
    } else {
      forall x | x in t.items ensures Awaited(t, x) {
        assert Awaited(s, x);
        if x.id == id && i.Some? { ById(s.items, i.value, x); }
      }
    }
  }

  /** No two items are the same command or, in one chat, about the same slot, and everything listed
      awaits a reply or a timer. */
  lemma OnKeeps(s: State, step: Step)
    requires Inv(s)
    ensures Inv(On(s, step))
  {
    hide Begin;
    hide Finish;
    hide EndPatience;
    hide Apart;
    hide OnePerSlot;
    match step
    case Start(command, key) => BeginKeeps(s, command, key);
    case Reply(id, failure, shown) => FinishKeeps(s, id, failure, shown);
    case PatienceEnds(id, reason) => EndPatienceKeeps(s, id, reason);
    case MemoryEnds(id) => KeepApart(s.items, (x: Item) => x.id == id && x.stage.FailedWith?);
    case Settle(key, shown) => KeepApart(s.items, (x: Item) => x.key == key && x.stage != Sending && shown(x));
    case Dismiss => KeepApart(s.items, (x: Item) => x.stage.FailedWith?);
  }

  lemma {:induction false} RunKeeps(steps: seq<Step>)
    ensures Inv(Run(steps))
  {
    hide On;
    if steps != [] {
      hide Inv;
      RunKeeps(steps[..|steps| - 1]);
      OnKeeps(Run(steps[..|steps| - 1]), steps[|steps| - 1]);
    }
  }

  // ----- every command moves on, and goes

  /** How far a command has to go: sending, sent, failed, gone. */
  function Rank(stage: Stage): nat {
    match stage
    case Sending => 3
    case SentOff => 2
    case FailedWith(_) => 1
  }

  /** The replies and timers to come, weighed by what each may set going. */
  function Measure(s: State): nat { 3 * |s.inflight| + 2 * |s.patience| + |s.remembered| }

  predicate Due(s: State, step: Step) {
    || (step.Reply? && step.id in s.inflight)
    || (step.PatienceEnds? && s.patience[step.id] > 0)
    || (step.MemoryEnds? && s.remembered[step.id] > 0)
  }

  /** Every reply and every timer leaves less to come. */
  lemma DueDecreases(s: State, step: Step)
    requires Due(s, step)
    ensures Measure(On(s, step)) < Measure(s)
  {
    if step.Reply? {
      ReplyDecreases(s, step.id, step.failure, step.shown);
    } else if step.PatienceEnds? {
      PatienceDecreases(s, step.id, step.reason);
    } else {
      hide Keep;
    }
  }

  lemma ReplyDecreases(s: State, id: Id, failure: Option<Str>, shown: Item -> bool)
    requires id in s.inflight
    ensures Measure(Finish(s, id, failure, shown)) < Measure(s)
  {
    hide IndexOf;
    assert |s.inflight - {id}| == |s.inflight| - 1;
  }

  lemma PatienceDecreases(s: State, id: Id, reason: Str)
    requires s.patience[id] > 0
    ensures Measure(EndPatience(s, id, reason)) < Measure(s)
  {
    hide IndexOf;
  }

  /** Whatever is listed has something to come; so when nothing is, nothing is listed, and every
      command is gone after its reply and timers, whatever they say. */
  lemma ListedIsAwaited(s: State)
    requires Inv(s) && s.items != []
    ensures Measure(s) > 0
  {
    var x := s.items[0];
    assert x in s.items && Awaited(s, x);
    if x.stage == Sending { assert |s.inflight - {x.id}| < |s.inflight|; }
  }

  /** `x` is `y`, or the same command further on. */
  predicate Onward(x: Item, y: Item) {
    x == y || (x == y.(stage := x.stage) && Rank(x.stage) < Rank(y.stage))
  }

  lemma ReplyMovesOn(s: State, step: Step, x: Item) returns (y: Item)
    requires Inv(s) && step.Reply? && x in On(s, step).items
    ensures y in s.items && Onward(x, y) && (step.id in s.inflight && step.id == x.id ==> x != y)
  {
    FinishKeeps(s, step.id, step.failure, step.shown);
    hide Apart;
    hide OnePerSlot;
    var t := On(s, step);
    var i := IndexOf(s.items, step.id);
    y := x;
    if step.id in s.inflight && i.Some? {
      assert Awaited(s, s.items[i.value]);
      if x.id != step.id {
        StillThere(s.items, t.items, i.value, x);
      } else {
        y := s.items[i.value];
        if t.items == Without(s.items, i.value) {
          WithoutOthers(s.items, i.value, x);
        } else {
          ById(t.items, i.value, x);
        }
      }
    }
  }

  lemma PatienceMovesOn(s: State, step: Step, x: Item) returns (y: Item)
    requires Inv(s) && step.PatienceEnds? && x in On(s, step).items
    ensures y in s.items && Onward(x, y)
    ensures s.patience[step.id] > 0 && step.id == x.id && y.stage == SentOff ==> x != y
  {
    EndPatienceKeeps(s, step.id, step.reason);
    hide Apart;
    hide OnePerSlot;
    var t := On(s, step);
    var i := IndexOf(s.items, step.id);
    y := x;
    if s.patience[step.id] > 0 && i.Some? {
      if x.id == step.id {
        y := s.items[i.value];
        ById(t.items, i.value, x);
      } else if t.items != s.items {
        StillThere(s.items, t.items, i.value, x);
      }
    }
  }

  /** A command only moves on: whatever a step leaves listed was listed before, where it is now or
      at an earlier stage. Its reply always moves it, and so does the end of the patience for one
      that was sent. What is gone, or was replaced, never comes back. */
  lemma OnlyMovesOn(s: State, step: Step, x: Item) returns (y: Item)
    requires Inv(s) && x in On(s, step).items && x.id < s.next
    ensures y in s.items && Onward(x, y)
    ensures step.Reply? && Due(s, step) && step.id == x.id ==> x != y
    ensures step.PatienceEnds? && Due(s, step) && step.id == x.id && y.stage == SentOff ==> x != y
    ensures step.Settle? && step.key == x.key && step.shown(x) ==> x.stage == Sending
  {
    if step.Reply? {
      y := ReplyMovesOn(s, step, x);
    } else if step.PatienceEnds? {
      y := PatienceMovesOn(s, step, x);
    } else {
      y := x;
    }
  }

  /** The reply to a command that was replaced, and its timers, change nothing listed. */
  lemma LateIsIgnored(s: State, step: Step)
    requires step.Reply? || step.PatienceEnds? || step.MemoryEnds?
    requires forall x :: x in s.items ==> x.id != step.id
    ensures On(s, step).items == s.items
  {
    hide Begin;
    hide Keep;
    if step.MemoryEnds? { KeepAll(s.items, (x: Item) => x.id == step.id && x.stage.FailedWith?); }
  }

  lemma {:induction false} KeepAll(items: seq<Item>, drop: Item -> bool)
    requires forall x :: x in items ==> !drop(x)
    ensures Keep(items, drop) == items
  {
    if items != [] {
      var n := |items| - 1;
      assert items[n] in items && items == items[..n] + [items[n]];
      KeepAll(items[..n], drop);
    }
  }

  /** A command on its way is neither settled away nor dismissed. */
  lemma InFlightStays(s: State, step: Step, x: Item)
    requires x in s.items && x.stage == Sending && (step.Settle? || step.Dismiss?)
    ensures x in On(s, step).items
  {}

  // ----- what a step makes of each command

  /** What becomes of a listed command, none when it goes. */
  function Becomes(s: State, step: Step, x: Item): Option<Item> {
    match step
    case Start(command, key) =>
      if Expects(command).Some? && SameSlot(x, key, SlotOf(Expects(command).value)) then None else Some(x)
    case Reply(id, failure, shown) =>
      if x.id != id || id !in s.inflight then Some(x)
      else if failure.Some? then Some(x.(stage := FailedWith(failure.value)))
      else if x.expected.None? || shown(x) then None
      else Some(x.(stage := SentOff))
    case PatienceEnds(id, reason) =>
      Some(if x.id == id && s.patience[id] > 0 && x.stage == SentOff then x.(stage := FailedWith(reason)) else x)
    case MemoryEnds(id) => if x.id == id && s.remembered[id] > 0 && x.stage.FailedWith? then None else Some(x)
    case Settle(key, shown) => if x.key == key && x.stage != Sending && shown(x) then None else Some(x)
    case Dismiss => if x.stage.FailedWith? then None else Some(x)
  }

  function Only(x: Option<Item>): seq<Item> { if x.None? then [] else [x.value] }

  function Each(s: State, step: Step, items: seq<Item>): seq<Item> {
    if items == [] then []
    else Each(s, step, items[..|items| - 1]) + Only(Becomes(s, step, items[|items| - 1]))
  }

  lemma {:induction false} EachKeeps(s: State, step: Step, items: seq<Item>, drop: Item -> bool)
    requires forall x :: x in items ==> Becomes(s, step, x) == if drop(x) then None else Some(x)
    ensures Each(s, step, items) == Keep(items, drop)
  {
    hide Becomes;
    if items != [] {
      var n := |items| - 1;
      assert items[n] in items;
      EachKeeps(s, step, items[..n], drop);
    }
  }

  lemma {:induction false} EachSame(s: State, step: Step, items: seq<Item>)
    requires forall x :: x in items ==> Becomes(s, step, x) == Some(x)
    ensures Each(s, step, items) == items
  {
    hide Becomes;
    if items != [] {
      var n := |items| - 1;
      assert items[n] in items && items == items[..n] + [items[n]];
      EachSame(s, step, items[..n]);
    }
  }

  /** Only the command at `i` may change. */
  lemma {:induction false} EachOne(s: State, step: Step, items: seq<Item>, i: nat)
    requires i < |items| && forall j :: 0 <= j < |items| && j != i ==> Becomes(s, step, items[j]) == Some(items[j])
    ensures Each(s, step, items) == items[..i] + Only(Becomes(s, step, items[i])) + items[i + 1..]
    decreases |items|
  {
    hide Becomes;
    var n := |items| - 1;
    if i == n {
      forall x | x in items[..n] ensures Becomes(s, step, x) == Some(x) {
        var j :| 0 <= j < n && items[j] == x;
      }
      EachSame(s, step, items[..n]);
      assert items[i + 1..] == [];
    } else {
      EachOne(s, step, items[..n], i);
      assert items[..n][..i] == items[..i] && items[..n][i + 1..] + [items[n]] == items[i + 1..];
    }
  }

  lemma IdsApart(items: seq<Item>, i: nat, j: nat)
    requires OnePerSlot(items) && i < |items| && j < |items| && i != j
    ensures items[i].id != items[j].id
  {
    if i < j { assert Apart(items[i], items[j]); } else { assert Apart(items[j], items[i]); }
  }

  lemma ReplyEach(s: State, step: Step)
    requires Inv(s) && (step.Reply? || step.PatienceEnds?)
    ensures On(s, step).items == Each(s, step, s.items)
  {
    hide Each;
    hide On;
    hide Awaited;
    hide Apart;
    var i := IndexOf(s.items, step.id);
    if i.None? {
      forall x | x in s.items ensures Becomes(s, step, x) == Some(x) {}
      EachSame(s, step, s.items);
      UnknownStays(s, step);
    } else {
      forall j | 0 <= j < |s.items| && j != i.value ensures Becomes(s, step, s.items[j]) == Some(s.items[j]) {
        IdsApart(s.items, j, i.value);
      }
      hide OnePerSlot;
      EachOne(s, step, s.items, i.value);
      KnownChanges(s, step);
    }
  }

  lemma UnknownStays(s: State, step: Step)
    requires (step.Reply? || step.PatienceEnds?) && IndexOf(s.items, step.id).None?
    ensures On(s, step).items == s.items
  {}

  lemma KnownChanges(s: State, step: Step)
    requires (step.Reply? || step.PatienceEnds?) && IndexOf(s.items, step.id).Some?
    ensures var i := IndexOf(s.items, step.id).value;
      On(s, step).items == s.items[..i] + Only(Becomes(s, step, s.items[i])) + s.items[i + 1..]
  {
    var i := IndexOf(s.items, step.id).value;
    var x := s.items[i];
    OneChanged(s.items, i, x.(stage := SentOff));
    OneChanged(s.items, i, x);
    if step.Reply? && step.failure.Some? { OneChanged(s.items, i, x.(stage := FailedWith(step.failure.value))); }
    if step.PatienceEnds? { OneChanged(s.items, i, x.(stage := FailedWith(step.reason))); }
    hide IndexOf;
  }

  lemma OneChanged(items: seq<Item>, i: nat, y: Item)
    requires i < |items|
    ensures items[i := y] == items[..i] + [y] + items[i + 1..]
    ensures y == items[i] ==> items == items[..i] + [y] + items[i + 1..]
    ensures Without(items, i) == items[..i] + [] + items[i + 1..]
  {}

  /** In every reachable state each command goes its own way and the list keeps its order; a started one
      is listed last, on its way, expecting what its command does. */
  lemma EachGoesItsOwnWay(s: State, step: Step)
    requires Inv(s)
    ensures On(s, step).items == Each(s, step, s.items)
      + if step.Start? then [Item(s.next, step.key, Expects(step.command), Sending)] else []
  {
    hide Inv;
    hide Each;
    hide Keep;
    hide IndexOf;
    match step
    case Start(command, key) =>
      if Expects(command).Some? {
        EachKeeps(s, step, s.items, (x: Item) => SameSlot(x, key, SlotOf(Expects(command).value)));
      } else {
        EachSame(s, step, s.items);
      }
    case Reply(id, failure, shown) => ReplyEach(s, step);
    case PatienceEnds(id, reason) => ReplyEach(s, step);
    case MemoryEnds(id) =>
      if s.remembered[id] > 0 {
        EachKeeps(s, step, s.items, (x: Item) => x.id == id && x.stage.FailedWith?);
      } else {
        EachSame(s, step, s.items);
      }
    case Settle(key, shown) =>
      EachKeeps(s, step, s.items, (x: Item) => x.key == key && x.stage != Sending && shown(x));
    case Dismiss => EachKeeps(s, step, s.items, (x: Item) => x.stage.FailedWith?);
  }

  // ----- the chat as it will be

  predicate ModeKnown(modes: Modes, id: Str) { exists m :: m in modes.available && m.id == id }

  function OptionIndex(options: seq<ConfigOption>, id: Str): (r: Option<nat>)
    ensures r.Some? ==> r.value < |options| && options[r.value].id == id
    ensures r.Some? ==> forall i :: 0 <= i < r.value ==> options[i].id != id
    ensures r.None? ==> forall i :: 0 <= i < |options| ==> options[i].id != id
  {
    if options == [] then None
    else if options[0].id == id then Some(0)
    else
      var r := OptionIndex(options[1..], id);
      if r.None? then None else Some(r.value + 1)
  }

  predicate ValueShown(kind: OptionKind, value: OptionValue) {
    || (kind.Select? && value.Choice? && kind.current == value.choice)
    || (kind.Toggle? && value.Switch? && kind.on == value.on)
  }

  /** The kind with the value picked, when it is one it has. */
  function Picked(kind: OptionKind, value: OptionValue): OptionKind {
    if kind.Select? && value.Choice? && value.choice in kind.choices then kind.(current := value.choice)
    else if kind.Toggle? && value.Switch? then Toggle(value.on)
    else kind
  }

  function NoQuestion(permissions: seq<Permission>, id: nat): (r: seq<Permission>)
    ensures forall p :: p in r <==> p in permissions && p.id != id
  {
    if permissions == [] then []
    else
      var n := |permissions| - 1;
      NoQuestion(permissions[..n], id) + if permissions[n].id == id then [] else [permissions[n]]
  }

  function NoPrompt(queued: seq<Queued>, id: nat): (r: seq<Queued>)
    ensures forall q :: q in r <==> q in queued && q.id != id
  {
    if queued == [] then []
    else
      var n := |queued| - 1;
      NoPrompt(queued[..n], id) + if queued[n].id == id then [] else [queued[n]]
  }

  /** Whether the transcript already shows the change. */
  predicate Shown(e: Expected, t: Transcript) {
    match e
    case ToMode(id) => t.details.modes.Some? && t.details.modes.value.current == id
    case ToOption(id, value) =>
      var i := OptionIndex(t.options, id); i.Some? && ValueShown(t.options[i.value].kind, value)
    case ToAutoAccept(on) => t.details.autoAccept == on
    case ToAnswer(id) => forall p :: p in t.permissions ==> p.id != id
    case ToUnqueue(id) => forall q :: q in t.details.queued ==> q.id != id
  }

  function Overlaid(e: Expected, t: Transcript): Transcript {
    match e
    case ToMode(id) =>
      if t.details.modes.None? || !ModeKnown(t.details.modes.value, id) then t
      else t.(details := t.details.(modes := Some(t.details.modes.value.(current := id))))
    case ToOption(id, value) =>
      var i := OptionIndex(t.options, id);
      if i.None? then t
      else t.(options := t.options[i.value := t.options[i.value].(kind := Picked(t.options[i.value].kind, value))])
    case ToAutoAccept(on) => t.(details := t.details.(autoAccept := on))
    case ToAnswer(id) => t.(permissions := NoQuestion(t.permissions, id))
    case ToUnqueue(id) => t.(details := t.details.(queued := NoPrompt(t.details.queued, id)))
  }

  predicate Live(x: Item, key: PaneKey) { x.key == key && !x.stage.FailedWith? && x.expected.Some? }

  /** `apply`: every command of the chat that has not failed, in order. */
  function Overlay(items: seq<Item>, key: PaneKey, t: Transcript): Transcript {
    if items == [] then t
    else
      var n := |items| - 1;
      var u := Overlay(items[..n], key, t);
      if Live(items[n], key) then Overlaid(items[n].expected.value, u) else u
  }

  /** Whether the chat has what the change is about. */
  predicate Applicable(e: Expected, t: Transcript) {
    match e
    case ToMode(id) => t.details.modes.Some? && ModeKnown(t.details.modes.value, id)
    case ToOption(id, value) =>
      var i := OptionIndex(t.options, id);
      i.Some? &&
      var kind := t.options[i.value].kind;
      (kind.Select? && value.Choice? && value.choice in kind.choices) || (kind.Toggle? && value.Switch?)
    case _ => true
  }

  lemma SameOptionIndex(options: seq<ConfigOption>, i: nat, kind: OptionKind, id: Str)
    requires i < |options|
    ensures OptionIndex(options[i := options[i].(kind := kind)], id) == OptionIndex(options, id)
  {
    var after := options[i := options[i].(kind := kind)];
    assert forall k :: 0 <= k < |options| ==> after[k].id == options[k].id;
    var a, b := OptionIndex(after, id), OptionIndex(options, id);
    if a.Some? { assert options[a.value].id == id; }
    if b.Some? { assert after[b.value].id == id; }
  }

  lemma OverlaidShows(e: Expected, t: Transcript)
    requires Applicable(e, t)
    ensures Shown(e, Overlaid(e, t))
  {
    if e.ToOption? {
      var i := OptionIndex(t.options, e.option).value;
      SameOptionIndex(t.options, i, Picked(t.options[i].kind, e.value), e.option);
    }
  }

  /** A change to one slot neither shows nor hides, neither allows nor rules out, one to another. */
  lemma SlotsAreApart(e: Expected, f: Expected, t: Transcript)
    requires SlotOf(e) != SlotOf(f)
    ensures Shown(f, Overlaid(e, t)) <==> Shown(f, t)
    ensures Applicable(f, Overlaid(e, t)) <==> Applicable(f, t)
  {
    if e.ToOption? && f.ToOption? {
      var i := OptionIndex(t.options, e.option);
      if i.Some? { SameOptionIndex(t.options, i.value, Picked(t.options[i.value].kind, e.value), f.option); }
    }
  }

  /** A change to the same slot takes the place of an earlier one: nothing of that is left. */
  lemma NewerReplaces(e: Expected, f: Expected, t: Transcript)
    requires SlotOf(e) == SlotOf(f) && Applicable(f, t)
    ensures Applicable(f, Overlaid(e, t)) && Overlaid(f, Overlaid(e, t)) == Overlaid(f, t)
  {
    match e
    case ToOption(id, value) =>
      var i := OptionIndex(t.options, id);
      if i.Some? {
        var kind := Picked(t.options[i.value].kind, value);
        SameOptionIndex(t.options, i.value, kind, id);
        PickedTwice(t.options[i.value].kind, value, f.value);
        var once := t.options[i.value := t.options[i.value].(kind := kind)];
        var last := t.options[i.value].(kind := Picked(t.options[i.value].kind, f.value));
        assert once[i.value := last] == t.options[i.value := last];
      }
    case ToAnswer(id) => NothingToRemove(NoQuestion(t.permissions, id), [], id);
    case ToUnqueue(id) => NothingToRemove([], NoPrompt(t.details.queued, id), id);
    case _ =>
  }

  lemma PickedTwice(kind: OptionKind, first: OptionValue, last: OptionValue)
    requires (kind.Select? && last.Choice? && last.choice in kind.choices) || (kind.Toggle? && last.Switch?)
    ensures Picked(Picked(kind, first), last) == Picked(kind, last)
  {}

  lemma {:induction false} NothingToRemove(permissions: seq<Permission>, queued: seq<Queued>, id: nat)
    ensures (forall p :: p in permissions ==> p.id != id) ==> NoQuestion(permissions, id) == permissions
    ensures (forall q :: q in queued ==> q.id != id) ==> NoPrompt(queued, id) == queued
    decreases |permissions| + |queued|
  {
    if permissions != [] {
      var n := |permissions| - 1;
      NothingToRemove(permissions[..n], [], id);
      assert permissions[n] in permissions && permissions == permissions[..n] + [permissions[n]];
    }
    if queued != [] {
      var n := |queued| - 1;
      NothingToRemove([], queued[..n], id);
      assert queued[n] in queued && queued == queued[..n] + [queued[n]];
    }
  }

  /** Overlaying what the chat shows changes nothing. */
  lemma ShownIsFixed(e: Expected, t: Transcript)
    requires Shown(e, t)
    ensures Overlaid(e, t) == t
  {
    match e
    case ToOption(id, value) =>
      var i := OptionIndex(t.options, id).value;
      assert Picked(t.options[i].kind, value) == t.options[i].kind;
      assert t.options[i := t.options[i]] == t.options;
    case ToAnswer(id) => NothingToRemove(t.permissions, [], id);
    case ToUnqueue(id) => NothingToRemove([], t.details.queued, id);
    case _ =>
  }

  /** A change the chat has nothing for is not drawn, and a drawn one touches only what it is about. */
  lemma OverlaidOnly(e: Expected, t: Transcript)
    ensures !Applicable(e, t) ==> Overlaid(e, t) == t
    ensures var u := Overlaid(e, t);
      match e
      case ToMode(_) =>
        && u == t.(details := t.details.(modes := u.details.modes))
        && (t.details.modes.Some? ==>
              u.details.modes.Some? && u.details.modes.value.available == t.details.modes.value.available)
      case ToOption(id, _) =>
        && u == t.(options := u.options) && |u.options| == |t.options|
        && forall i :: 0 <= i < |t.options| ==>
             if t.options[i].id == id then u.options[i].(kind := t.options[i].kind) == t.options[i]
             else u.options[i] == t.options[i]
      case ToAutoAccept(_) => u == t.(details := t.details.(autoAccept := u.details.autoAccept))
      case ToAnswer(_) => u == t.(permissions := u.permissions)
      case ToUnqueue(_) => u == t.(details := t.details.(queued := u.details.queued))
  {
    if e.ToOption? && OptionIndex(t.options, e.option).Some? {
      var i := OptionIndex(t.options, e.option).value;
      assert t.options[i := t.options[i]] == t.options;
    }
  }

  /** What the computer's change shows when it carries out the command. */
  ghost predicate Echoes(command: ChatCommand, change: Change) {
    match command
    case SetMode(mode) => change == CurrentMode(mode)
    case SetAutoAccept(on) => change == Change.SetAutoAccept(on)
    case AnswerQuestion(permission, _) => change == PermissionResolved(permission)
    case UnqueuePrompt(queued) => change.SetQueue? && forall q :: q in change.queued ==> q.id != queued
    case SetOption(option, value) =>
      && change.SetOptions? && OptionIndex(change.options, option).Some?
      && ValueShown(change.options[OptionIndex(change.options, option).value].kind, value)
    case _ => false
  }

  /** The computer's own change shows exactly what the command was expected to, so the command is
      settled by it. */
  lemma EchoShows(command: ChatCommand, change: Change, t: Transcript)
    requires WellFormed(t) && Echoes(command, change) && Apply(t, change).Fits?
    ensures Expects(command).Some? && Shown(Expects(command).value, Apply(t, change).t)
  {
    assert PermissionsOk(t.permissions);
    hide WellFormed;
    if command.AnswerQuestion? {
      var all, i := t.permissions, PermissionIndex(t.permissions, command.permission).value;
      var after := Without(all, i);
      forall p | p in after ensures p.id != command.permission {
        var j :| 0 <= j < |after| && after[j] == p;
        assert p == all[if j < i then j else j + 1];
      }
    }
  }

  lemma {:induction false} OverlayIsApart(items: seq<Item>, key: PaneKey, t: Transcript, f: Expected)
    requires forall x :: x in items && Live(x, key) ==> SlotOf(x.expected.value) != SlotOf(f)
    ensures Shown(f, Overlay(items, key, t)) <==> Shown(f, t)
    ensures Applicable(f, Overlay(items, key, t)) <==> Applicable(f, t)
  {
    hide Shown;
    hide Applicable;
    hide Overlaid;
    if items != [] {
      var n := |items| - 1;
      OverlayIsApart(items[..n], key, t, f);
      assert items[n] in items;
      if Live(items[n], key) { SlotsAreApart(items[n].expected.value, f, Overlay(items[..n], key, t)); }
    }
  }

  lemma EarlierAreApart(items: seq<Item>, n: nat, key: PaneKey)
    requires OnePerSlot(items) && n < |items| && Live(items[n], key)
    ensures forall x :: x in items[..n] && Live(x, key) ==> SlotOf(x.expected.value) != SlotOf(items[n].expected.value)
  {
    forall x | x in items[..n] && Live(x, key) ensures SlotOf(x.expected.value) != SlotOf(items[n].expected.value) {
      var j :| 0 <= j < n && items[j] == x;
      assert Apart(items[j], items[n]);
    }
  }

  /** The chat is drawn with every change that is on its way and has something to change. */
  lemma {:induction false} OverlayShows(items: seq<Item>, key: PaneKey, t: Transcript, x: Item)
    requires OnePerSlot(items) && x in items && Live(x, key) && Applicable(x.expected.value, t)
    ensures Shown(x.expected.value, Overlay(items, key, t))
  {
    hide Shown;
    hide Applicable;
    hide Overlaid;
    hide Apart;
    var n := |items| - 1;
    var u := Overlay(items[..n], key, t);
    if x in items[..n] {
      OverlayShows(items[..n], key, t, x);
      if Live(items[n], key) {
        EarlierAreApart(items, n, key);
        SlotsAreApart(items[n].expected.value, x.expected.value, u);
      }
    } else {
      EarlierAreApart(items, n, key);
      OverlayIsApart(items[..n], key, t, x.expected.value);
      OverlaidShows(x.expected.value, u);
    }
  }

  /** Dropping what the chat shows, or what failed, changes nothing drawn. */
  lemma {:induction false} DroppedUnseen(items: seq<Item>, drop: Item -> bool, key: PaneKey, t: Transcript)
    requires OnePerSlot(items)
    requires forall x :: x in items && drop(x) && Live(x, key) ==> Shown(x.expected.value, t)
    ensures Overlay(Keep(items, drop), key, t) == Overlay(items, key, t)
  {
    hide Shown;
    hide Overlaid;
    hide Apart;
    if items != [] {
      var n := |items| - 1;
      DroppedUnseen(items[..n], drop, key, t);
      assert items[n] in items;
      var kept := Keep(items[..n], drop);
      if drop(items[n]) {
        assert kept + [] == kept;
        if Live(items[n], key) {
          EarlierAreApart(items, n, key);
          OverlayIsApart(items[..n], key, t, items[n].expected.value);
          ShownIsFixed(items[n].expected.value, Overlay(items[..n], key, t));
        }
      } else {
        assert (kept + [items[n]])[..|kept|] == kept;
      }
    }
  }

  /** Settling and dismissing never change the chat on screen, in any run: what is settled expects
      nothing or is already shown by its own chat, and what failed was never drawn. */
  lemma SettlingIsUnseen(steps: seq<Step>, step: Step, key: PaneKey, t: Transcript)
    requires step.Dismiss? || step.Settle?
    requires step.Settle? && step.key == key ==>
      forall x: Item :: x.key == key && step.shown(x) ==> x.expected.None? || Shown(x.expected.value, t)
    ensures Overlay(On(Run(steps), step).items, key, t) == Overlay(Run(steps).items, key, t)
  {
    hide Run;
    hide Shown;
    hide Overlay;
    RunKeeps(steps);
    var s := Run(steps);
    if step.Settle? {
      DroppedUnseen(s.items, (x: Item) => x.key == step.key && x.stage != Sending && step.shown(x), key, t);
    } else {
      DroppedUnseen(s.items, (x: Item) => x.stage.FailedWith?, key, t);
    }
  }

  // ----- the list in place

  datatype SyncState = Synced | Waiting(count: nat) | Failures(count: nat)

  class PendingCommands {
    var items: seq<Item>
    var next: Id
    var inflight: set<Id>
    var patience: multiset<Id>
    var remembered: multiset<Id>

    function Now(): State
      reads this
    {
      State(items, next, inflight, patience, remembered)
    }

    constructor ()
      ensures Now() == START
    {
      items, next, inflight, patience, remembered := [], 0, {}, multiset{}, multiset{};
    }

    method StartCommand(command: ChatCommand, key: PaneKey) returns (id: Id)
      modifies this
      ensures id == old(next) && Now() == On(old(Now()), Start(command, key))
    {
      var expected := Expects(command);
      if expected.Some? {
        var slot := SlotOf(expected.value);
        items := Keep(items, x => SameSlot(x, key, slot));
        SameKeep(old(items), x => SameSlot(x, key, slot), x => SameSlot(x, key, SlotOf(expected.value)));
      }
      id := next;
      next := next + 1;
      items := items + [Item(id, key, expected, Sending)];
      inflight := inflight + {id};
    }

    method FailItem(id: Id, reason: Str)
      modifies this`items, this`remembered
      ensures Now() == Fail(old(Now()), id, reason)
    {
      var i := IndexOf(items, id);
      if i.None? { return; }
      items := items[i.value := items[i.value].(stage := FailedWith(reason))];
      remembered := remembered + multiset{id};
    }

    method Finished(id: Id, failure: Option<Str>, shown: Item -> bool)
      requires id in inflight
      modifies this
      ensures Now() == On(old(Now()), Reply(id, failure, shown))
    {
      inflight := inflight - {id};
      var i := IndexOf(items, id);
      if i.None? { return; }
      if failure.Some? {
        FailItem(id, failure.value);
        return;
      }
      if items[i.value].expected.None? || shown(items[i.value]) {
        items := Without(items, i.value);
        return;
      }
      items := items[i.value := items[i.value].(stage := SentOff)];
      patience := patience + multiset{id};
    }

    method PatienceOver(id: Id, reason: Str)
      requires patience[id] > 0
      modifies this
      ensures Now() == On(old(Now()), PatienceEnds(id, reason))
    {
      patience := patience - multiset{id};
      var i := IndexOf(items, id);
      if i.None? || items[i.value].stage != SentOff { return; }
      FailItem(id, reason);
    }

    method MemoryOver(id: Id)
      requires remembered[id] > 0
      modifies this
      ensures Now() == On(old(Now()), MemoryEnds(id))
    {
      remembered := remembered - multiset{id};
      items := Keep(items, (x: Item) => x.id == id && x.stage.FailedWith?);
      SameKeep(old(items), (x: Item) => x.id == id && x.stage.FailedWith?,
               (x: Item) => x.id == id && x.stage.FailedWith?);
    }

    method SettleKey(key: PaneKey, shown: Item -> bool)
      modifies this`items
      ensures Now() == On(old(Now()), Settle(key, shown))
    {
      items := Keep(items, (x: Item) => x.key == key && x.stage != Sending && shown(x));
    }

    method DismissFailures()
      modifies this`items
      ensures Now() == On(old(Now()), Dismiss)
    {
      items := Keep(items, (x: Item) => x.stage.FailedWith?);
    }

    method Draw(t: Transcript, key: PaneKey) returns (r: Transcript)
      ensures r == Overlay(items, key, t)
    {
      r := t;
      for i := 0 to |items|
        invariant r == Overlay(items[..i], key, t)
      {
        assert items[..i + 1][..i] == items[..i];
        if items[i].key == key && !items[i].stage.FailedWith? && items[i].expected.Some? {
          r := Overlaid(items[i].expected.value, r);
        }
      }
      assert items[..|items|] == items;
    }

    /** How far what was sent has come back. */
    method Sync() returns (r: SyncState)
      ensures r.Synced? <==> items == []
      ensures r.Failures? <==> exists x :: x in items && x.stage.FailedWith?
      ensures r.Waiting? ==> r.count == |items|
    {
      var failed := 0;
      for i := 0 to |items|
        invariant failed > 0 <==> exists j :: 0 <= j < i && items[j].stage.FailedWith?
        invariant failed >= 0
      {
        if items[i].stage.FailedWith? { failed := failed + 1; }
      }
      if failed > 0 { return Failures(failed); }
      r := if items == [] then Synced else Waiting(|items|);
    }
  }

  lemma {:induction false} SameKeep(items: seq<Item>, a: Item -> bool, b: Item -> bool)
    requires forall x :: a(x) <==> b(x)
    ensures Keep(items, a) == Keep(items, b)
  {
    if items != [] { SameKeep(items[..|items| - 1], a, b); }
  }
}
