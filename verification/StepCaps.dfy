/** How much the projector shows of a sub-agent's steps and remembers of the rest
    (crates/sheprd-acp/src/project.rs, `admit`, `skip` and the to-do paths of `update`). */
module StepCaps {
  import opened Basics
  import opened Transcripts
  import opened Projectors
  import D = Diff
  import E = StreamedEntries
  import opened Texts

  // ----- bounded bookkeeping

  predicate Within(p: State) {
    |p.skipped| <= MAX_SKIPPED && |p.todos| <= MAX_SKIPPED && |p.steps| <= MAX_ACTIVITIES_TRACKED + 1
  }

  lemma KeysSize<K, V>(m: map<K, V>)
    ensures |m| == |m.Keys|
  {}

  lemma FewerKeys<V>(kept: map<Str, V>, all: map<Str, V>)
    requires kept.Keys <= all.Keys
    ensures |kept| <= |all|
  {
    KeysSize(kept);
    KeysSize(all);
    D.SubsetSize(kept.Keys, all.Keys);
  }

  lemma OneMoreKey<V>(m: map<Str, V>, key: Str, value: V)
    ensures |m[key := value]| <= |m| + 1
  {
    KeysSize(m);
    KeysSize(m[key := value]);
    assert m[key := value].Keys == m.Keys + {key};
  }

  /** The counts kept are those of activities the transcript has, of which there are few. */
  lemma AdmitWithin(p: State, t: Transcript, parent: Str)
    requires ActivitiesOk(t.activities) && Within(p)
    ensures Within(Admit(p, t, parent).0)
  {
    var steps := if |p.steps| > MAX_ACTIVITIES_TRACKED then StillListed(p.steps, t) else p.steps;
    if |p.steps| > MAX_ACTIVITIES_TRACKED {
      forall call | call in steps ensures call in D.Calls(t.activities) { ActivityOfIs(t, call); }
      KeysSize(steps);
      D.SubsetSize(steps.Keys, D.Calls(t.activities));
      D.CountCalls(t.activities);
    }
    OneMoreKey(steps, parent, (if parent in steps then steps[parent] else 0) + 1);
  }

  lemma SkipWithin(p: State, t: Transcript, call: Str, parent: Str)
    requires Within(p)
    ensures Within(Skip(p, t, call, parent))
  {
    var kept := StillRunning(p.skipped, t);
    FewerKeys(kept, p.skipped);
    OneMoreKey(kept, call, parent);
    OneMoreKey(p.skipped, call, parent);
  }

  lemma AdmittedWithin(p: State, t: Transcript, call: Str, tag: Tag)
    requires ActivitiesOk(t.activities) && Within(p)
    ensures Within(Admitted(p, t, call, tag).0)
  {
    hide Admit;
    hide Within;
    if tag.parent.Some? { AdmitWithin(p, t, tag.parent.value); }
  }

  lemma PastCapWithin(p: State, t: Transcript, call: Str, tag: Tag, status: ToolStatus)
    requires Within(p)
    ensures Within(PastCap(p, t, call, tag, status))
  {
    hide Skip;
    if tag.parent.Some? { SkipWithin(p, t, call, tag.parent.value); }
    FewerKeys(p.skipped - {call}, p.skipped);
  }

  /** What a tool change leaves alone. */
  lemma ToolChangeOnly(p: State, t: Transcript, call: Str, edit: Edit)
    ensures var q := ToolChange(p, t, call, edit).0; q == p.(next := q.next, open := q.open, tools := q.tools)
  {}

  lemma TaggedWithin(p: State, t: Transcript, call: Str, tag: Tag, now: nat, patch: Patch)
    requires ActivitiesOk(t.activities) && Within(p)
    ensures Within(Tagged(p, t, call, tag, now, patch).0)
  {
    hide Admitted;
    hide PastCap;
    hide ToolChange;
    hide ActivityChanges;
    AdmittedWithin(p, t, call, tag);
    var q := Admitted(p, t, call, tag).0;
    ToolChangeOnly(q, t, call, Tagging(patch, tag, now));
    PastCapWithin(q, t, call, tag, Patched(NewTool(call), patch).status);
  }

  lemma TodosWithin(p: State, call: Str)
    requires Within(p)
    ensures Within(p.(todos := p.todos - {call}))
    ensures |p.todos| < MAX_SKIPPED ==> Within(p.(todos := p.todos + {call}))
  {
    D.SubsetSize(p.todos - {call}, p.todos);
  }

  lemma UpdateWithin(p: State, t: Transcript, op: Op)
    requires ActivitiesOk(t.activities) && Within(p) && (op.Call? || op.CallUpdate?)
    ensures Within(Do(p, t, op).0)
  {
    hide Within;
    hide Tagged;
    hide RecordChange;
    hide TodoPlan;
    hide ActivitiesOk;
    TodosWithin(p, op.call);
    TaggedWithin(p, t, op.call, op.tag, op.now, op.patch);
    TaggedWithin(p.(todos := p.todos - {op.call}), t, op.call, op.tag, op.now, op.patch);
  }

  lemma DoWithin(p: State, t: Transcript, op: Op)
    requires ActivitiesOk(t.activities) && Within(p)
    ensures Within(Do(p, t, op).0)
  {
    hide OnCall;
    hide OnCallUpdate;
    hide ToolChange;
    if op.Call? || op.CallUpdate? {
      UpdateWithin(p, t, op);
    } else if op.AskAbout? {
      ToolChangeOnly(p, t, op.call, Plain(op.patch));
    }
  }

  /** Pictures change no count and hide nothing. */
  lemma {:induction false} ShotsOnly(p: State, pictures: seq<Inserted>)
    ensures var q := Shots(p, pictures).0; q == p.(next := q.next, open := q.open, tools := q.tools)
    ensures Shots(p, pictures).0.tools.Keys <= p.tools.Keys
  {
    if pictures != [] { ShotsOnly(p, pictures[..|pictures| - 1]); }
  }

  lemma EmittedOnly(p: State, t: Transcript, op: Op, pictures: seq<Inserted>)
    ensures var q := Emitted(p, t, op, pictures).0;
      q == Do(p, t, op).0.(next := q.next, open := q.open, tools := q.tools)
      && q.tools.Keys <= Do(p, t, op).0.tools.Keys
  {
    hide Do;
    hide Shots;
    ShotsOnly(Do(p, t, op).0, pictures);
  }

  /** In every run, at most 1024 hidden calls, 1024 to-do calls and 65 counted sub-agents are
      remembered. */
  lemma {:induction false} EveryRunStaysWithin(t: Transcript, last: EntryId, steps: seq<Step>)
    requires WellFormed(t) && IdsBelow(t.entries, last)
    ensures Within(Run(After(last), t, steps).0)
  {
    hide Emitted;
    hide Fit;
    hide WellFormed;
    hide IdsBelow;
    hide Do;
    if steps != [] {
      var n := |steps| - 1;
      EveryRunStaysWithin(t, last, steps[..n]);
      var (p, changes) := Run(After(last), t, steps[..n]);
      var u := RunState(t, last, steps[..n]);
      DoWithin(p, u, steps[n].op);
      EmittedOnly(p, u, steps[n].op, steps[n].pictures);
    }
  }

  /** The transcript a run has made. */
  lemma RunState(t: Transcript, last: EntryId, steps: seq<Step>) returns (u: Transcript)
    requires WellFormed(t) && IdsBelow(t.entries, last)
    ensures Fold(t, Run(After(last), t, steps).1) == Fits(u) && ActivitiesOk(u.activities)
  {
    hide Aimed;
    hide Do;
    hide Run;
    hide Fold;
    var born := EveryRunFits(t, last, steps, Close);
    u := Fold(t, Run(After(last), t, steps).1).t;
  }

  // ----- at most 64 cards a sub-agent

  function Counted(p: State, parent: Str): nat { if parent in p.steps then p.steps[parent] else 0 }

  /** Whether the update pushes the first card of a call tagged with `parent`. */
  predicate Shows(p: State, t: Transcript, op: Op, parent: Str) {
    (op.Call? || op.CallUpdate?) && op.tag.parent == Some(parent)
    && Do(p, t, op).1 != [] && Do(p, t, op).1[0].Push?
  }

  /** How many a run pushes. */
  function Cards(p: State, t: Transcript, steps: seq<Step>, parent: Str): nat {
    if steps == [] then 0
    else
      var before := steps[..|steps| - 1];
      var (q, changes) := Run(p, t, before);
      var r := Fold(t, changes);
      Cards(p, t, before, parent) + if r.Fits? && Shows(q, r.t, steps[|steps| - 1].op, parent) then 1 else 0
  }

  /** Whether the sub-agent's activity is in the transcript whenever an update reads it. */
  predicate Stays(p: State, t: Transcript, steps: seq<Step>, parent: Str) {
    steps == [] ||
    (var before := steps[..|steps| - 1];
     var r := Fold(t, Run(p, t, before).1);
     Stays(p, t, before, parent) && r.Fits? && ActivityOf(r.t, parent).Some?)
  }

  lemma AdmitCounts(p: State, t: Transcript, parent: Str, other: Str)
    requires ActivityOf(t, other).Some?
    ensures var (q, ok) := Admit(p, t, parent);
      Counted(q, other) == Counted(p, other) + (if parent == other then 1 else 0)
      && ok == (Counted(q, parent) <= MAX_STEPS)
  {}

  lemma TaggedCounts(p: State, t: Transcript, born: Births, call: Str, tag: Tag, now: nat, patch: Patch, parent: Str)
    requires Fit(p, t, born) && ActivityOf(t, parent).Some?
    ensures var (q, changes) := Tagged(p, t, call, tag, now, patch);
      && Counted(p, parent) <= Counted(q, parent)
      && (tag.parent == Some(parent) && changes != [] && changes[0].Push? ==>
            Counted(p, parent) < Counted(q, parent) <= MAX_STEPS)
  {
    hide Fit;
    hide Admit;
    hide PastCap;
    hide ToolChange;
    hide ActivityChanges;
    hide Apply;
    hide Card;
    if tag.parent.Some? { AdmitCounts(p, t, tag.parent.value, parent); }
    var (q, admitted) := Admitted(p, t, call, tag);
    AdmittedOnlyCounts(p, t, call, tag);
    FitWellFormed(p, t, born);
    FitIgnores(p, q, t, t, born);
    var edit := Tagging(patch, tag, now);
    ToolFits(q, t, born, call, edit);
    ToolChangeOnly(q, t, call, edit);
    var tool := Patched(NewTool(call), patch);
    PastCapOnlySkips(q, t, call, tag, tool.status);
    NoPush(t, call, tag, tool.title, now);
    var changes := ActivityChanges(t, call, tag, tool.title, now);
    assert changes != [] ==> changes[0] in changes;
  }

  lemma DoCounts(p: State, t: Transcript, born: Births, op: Op, parent: Str)
    requires Fit(p, t, born) && ActivityOf(t, parent).Some?
    ensures var q := Do(p, t, op).0;
      && Counted(p, parent) <= Counted(q, parent)
      && (Shows(p, t, op, parent) ==> Counted(p, parent) < Counted(q, parent) <= MAX_STEPS)
  {
    hide Fit;
    hide Tagged;
    hide ToolChange;
    hide RecordChange;
    if op.Call? || op.CallUpdate? {
      var r := p.(todos := p.todos - {op.call});
      FitWellFormed(p, t, born);
      FitIgnores(p, r, t, t, born);
      TaggedCounts(p, t, born, op.call, op.tag, op.now, op.patch, parent);
      TaggedCounts(r, t, born, op.call, op.tag, op.now, op.patch, parent);
    } else if op.AskAbout? {
      ToolChangeOnly(p, t, op.call, Plain(op.patch));
    }
  }

  /** While a sub-agent's activity stays in the transcript, a run pushes at most 64 cards tagged
      with it. */
  lemma {:induction false} AtMost64Cards(t: Transcript, last: EntryId, steps: seq<Step>, parent: Str)
    requires WellFormed(t) && IdsBelow(t.entries, last) && Stays(After(last), t, steps, parent)
    ensures Cards(After(last), t, steps, parent) <= MAX_STEPS
    ensures Cards(After(last), t, steps, parent) <= Counted(Run(After(last), t, steps).0, parent)
  {
    hide Emitted;
    hide Fit;
    hide WellFormed;
    hide IdsBelow;
    hide Shows;
    hide Aimed;
    hide Rising;
    if steps != [] {
      var n := |steps| - 1;
      AtMost64Cards(t, last, steps[..n], parent);
      var (p, changes) := Run(After(last), t, steps[..n]);
      var u := Fold(t, changes).t;
      var born := EveryRunFits(t, last, steps[..n], Close);
      DoCounts(p, u, born, steps[n].op, parent);
      EmittedOnly(p, u, steps[n].op, steps[n].pictures);
    }
  }

  // ----- a hidden step has no card

  ghost predicate Apart(p: State) {
    forall c :: c in p.skipped ==> c !in p.tools
  }

  /** The one way past the cap: a permission request about a hidden call shows it. */
  predicate AsksHidden(p: State, op: Op) { op.AskAbout? && op.call in p.skipped }

  /** No change of the update makes or changes a card of a hidden call. */
  ghost predicate Hides(p: State, changes: seq<Change>) {
    forall c :: c in changes && ToolOf(c).Some? ==> ToolOf(c).value.callId !in p.skipped
  }

  lemma SkipKeeps(p: State, t: Transcript, call: Str, parent: Str)
    ensures Skip(p, t, call, parent).skipped.Keys <= p.skipped.Keys + {call}
  {}

  lemma PastCapApart(p: State, t: Transcript, call: Str, tag: Tag, status: ToolStatus)
    requires Apart(p)
    ensures Apart(PastCap(p, t, call, tag, status))
  {
    hide Skip;
    PastCapOnlySkips(p, t, call, tag, status);
    if tag.parent.Some? { SkipKeeps(p, t, call, tag.parent.value); }
  }

  lemma TaggedHides(p: State, t: Transcript, born: Births, call: Str, tag: Tag, now: nat, patch: Patch)
    requires Fit(p, t, born) && Apart(p)
    ensures var (q, changes) := Tagged(p, t, call, tag, now, patch); Apart(q) && Hides(p, changes)
  {
    hide Fit;
    hide Admit;
    hide PastCap;
    hide ToolChange;
    hide ActivityChanges;
    hide Apply;
    hide Card;
    var (q, admitted) := Admitted(p, t, call, tag);
    AdmittedOnlyCounts(p, t, call, tag);
    FitWellFormed(p, t, born);
    FitIgnores(p, q, t, t, born);
    if admitted {
      assert call !in p.skipped;
      var edit := Tagging(patch, tag, now);
      ToolFits(q, t, born, call, edit);
      ToolKeys(q, t, call, edit);
      ToolChangeOnly(q, t, call, edit);
      NoPush(t, call, tag, ToolOf(ToolChange(q, t, call, edit).1).value.title, now);
    } else {
      var tool := Patched(NewTool(call), patch);
      PastCapApart(q, t, call, tag, tool.status);
      NoPush(t, call, tag, tool.title, now);
    }
  }

  lemma ToolKeys(p: State, t: Transcript, call: Str, edit: Edit)
    ensures ToolChange(p, t, call, edit).0.tools.Keys == p.tools.Keys + {call}
  {
    if call in p.tools { assert p.tools.Keys + {call} == p.tools.Keys; }
  }

  lemma AskHides(p: State, t: Transcript, born: Births, op: Op)
    requires Fit(p, t, born) && Apart(p) && op.AskAbout?
    ensures var (q, changes) := Do(p, t, op); Hides(p, changes) <==> op.call !in p.skipped
    ensures op.call !in p.skipped ==> Apart(Do(p, t, op).0)
  {
    hide Fit;
    hide ToolChange;
    hide Apply;
    hide Card;
    var edit := Plain(op.patch);
    ToolFits(p, t, born, op.call, edit);
    ToolKeys(p, t, op.call, edit);
    ToolChangeOnly(p, t, op.call, edit);
    assert ToolChange(p, t, op.call, edit).1 in Do(p, t, op).1;
  }

  lemma TodoHides(p: State, q: State, plan: Option<seq<PlanEntry>>)
    ensures Hides(p, TodoPlan(q, plan))
  {}

  lemma RecordHides(p: State, t: Transcript, call: Str, title: Str, report: Report, now: nat)
    ensures Hides(p, Listed(RecordChange(t, call, title, report, now)))
  {}

  lemma UpdateHides(p: State, t: Transcript, born: Births, op: Op)
    requires Fit(p, t, born) && Apart(p) && (op.Call? || op.CallUpdate?)
    ensures var (q, changes) := Do(p, t, op); Hides(p, changes) && Apart(q)
  {
    hide Fit;
    hide Tagged;
    hide RecordChange;
    hide TodoPlan;
    var r := p.(todos := p.todos - {op.call});
    FitWellFormed(p, t, born);
    FitIgnores(p, r, t, t, born);
    TaggedHides(p, t, born, op.call, op.tag, op.now, op.patch);
    TaggedHides(r, t, born, op.call, op.tag, op.now, op.patch);
    var changes := Tagged(r, t, op.call, op.tag, op.now, op.patch).1;
    assert Hides(p, changes);
    var with_ := p.(todos := p.todos + {op.call});
    assert Apart(r) && Apart(with_);
    hide Apart;
    hide Hides;
    TodoHides(p, p, op.plan);
    TodoHides(p, r, op.plan);
    if op.CallUpdate? && op.tag.activity.Some? && ActivityOf(t, op.call).Some? {
      RecordHides(p, t, op.call, ActivityOf(t, op.call).value.labelText, op.tag.activity.value, op.now);
    }
  }

  /** No update touches the card of a hidden call, except a permission request about that call. */
  lemma DoHides(p: State, t: Transcript, born: Births, op: Op)
    requires Fit(p, t, born) && Apart(p)
    ensures var (q, changes) := Do(p, t, op); Hides(p, changes) <==> !AsksHidden(p, op)
    ensures !AsksHidden(p, op) ==> Apart(Do(p, t, op).0)
  {
    hide Fit;
    hide OnCall;
    hide OnCallUpdate;
    if op.Call? || op.CallUpdate? {
      UpdateHides(p, t, born, op);
    } else if op.AskAbout? {
      hide ToolChange;
      AskHides(p, t, born, op);
    }
  }

  // A run that hides a call and then asks about it: a sub-agent's sixty-fifth call.

  const PARENT: Str := [200]
  const NO_PATCH := Patch(None, None, None, None, None)
  const EMPTY := D.Reading(D.PLAIN, [], false)

  function Nth(n: nat): Op
    requires n < 200
  {
    Call([n], Tag(None, Some(PARENT)), NO_PATCH, 0, false, None)
  }

  function FirstCalls(k: nat): (r: seq<Step>)
    requires k < 200
    ensures |r| == k
  {
    if k == 0 then [] else FirstCalls(k - 1) + [Step(Nth(k - 1), [])]
  }

  /** After `k` calls, all shown. */
  ghost predicate Filled(p: State, k: nat) {
    && p.steps == (if k == 0 then map[] else map[PARENT := k]) && p.skipped == map[] && p.todos == {}
    && forall c :: c in p.tools ==> |c| == 1 && c[0] < k
  }

  lemma FreshTool(p: State, t: Transcript, call: Str, edit: Edit)
    requires call !in p.tools
    ensures var (q, change) := ToolChange(p, t, call, edit);
      && change.Push? && ToolOf(change).Some? && ToolOf(change).value.callId == call
      && q == p.(next := p.next + 1, open := None, tools := p.tools[call := p.next + 1])
  {
    hide Patched;
    hide Marked;
    hide Started;
  }

  lemma NothingToSay(t: Transcript, call: Str, tag: Tag, title: Str, now: nat)
    requires t.activities == [] && tag.activity.None?
    ensures ActivityChanges(t, call, tag, title, now) == []
  {
    hide ActivityClip;
    hide RecordChange;
    if tag.parent.Some? { assert ActivityOf(t, tag.parent.value).None?; }
  }

  lemma AdmitNth(p: State, t: Transcript, k: nat)
    requires Filled(p, k)
    ensures Admit(p, t, PARENT) == (p.(steps := map[PARENT := k + 1]), k + 1 <= MAX_STEPS)
  {
    assert p.steps[PARENT := k + 1] == map[PARENT := k + 1];
    assert |p.steps| <= 1;
  }

  lemma NthIsNew(p: State, k: nat)
    requires k < 200 && Filled(p, k)
    ensures [k] !in p.tools && [k] !in p.skipped
  {}

  lemma NthIsShown(p: State, t: Transcript, k: nat)
    requires k < MAX_STEPS && Filled(p, k) && t.activities == []
    ensures var (q, changes) := Do(p, t, Nth(k)); Filled(q, k + 1) && |changes| == 1 && changes[0].Push?
  {
    hide Admit;
    hide ToolChange;
    hide ActivityChanges;
    hide PastCap;
    var tag := Tag(None, Some(PARENT));
    AdmitNth(p, t, k);
    NthIsNew(p, k);
    var q := p.(steps := map[PARENT := k + 1]);
    FreshTool(q, t, [k], Tagging(NO_PATCH, tag, 0));
    var change := ToolChange(q, t, [k], Tagging(NO_PATCH, tag, 0)).1;
    NothingToSay(t, [k], tag, ToolOf(change).value.title, 0);
    assert [change] + [] == [change];
  }

  lemma LastIsHidden(p: State, t: Transcript)
    requires Filled(p, MAX_STEPS) && t.activities == []
    ensures var (q, changes) := Do(p, t, Nth(MAX_STEPS));
      changes == [] && q.skipped == map[[MAX_STEPS] := PARENT] && q.tools == p.tools
  {
    hide Admit;
    hide ToolChange;
    hide ActivityChanges;
    var tag := Tag(None, Some(PARENT));
    AdmitNth(p, t, MAX_STEPS);
    NthIsNew(p, MAX_STEPS);
    NothingToSay(t, [MAX_STEPS], tag, Patched(NewTool([MAX_STEPS]), NO_PATCH).title, 0);
  }

  lemma AskFresh(p: State, t: Transcript, call: Str)
    requires call !in p.tools
    ensures var (q, asked) := Do(p, t, AskAbout(call, NO_PATCH));
      && q.skipped == p.skipped && |asked| == 1 && asked[0].Push? && ToolOf(asked[0]).Some?
      && ToolOf(asked[0]).value.callId == call
  {
    hide ToolChange;
    FreshTool(p, t, call, Plain(NO_PATCH));
  }

  lemma {:induction false} Fill(k: nat)
    requires k <= MAX_STEPS
    ensures var (p, changes) := Run(After(0), EMPTY, FirstCalls(k));
      var r := Fold(EMPTY, changes);
      r.Fits? && r.t.activities == [] && Filled(p, k)
  {
    hide Do;
    hide Apply;
    hide Filled;
    if k == 0 {
      E.RunNothing(After(0), EMPTY);
      NothingFilled();
    } else {
      hide Run;
      hide Fold;
      Fill(k - 1);
      var steps := FirstCalls(k);
      assert steps[..k - 1] == FirstCalls(k - 1);
      var (p, changes) := Run(After(0), EMPTY, steps[..k - 1]);
      var u := Fold(EMPTY, changes).t;
      NthIsShown(p, u, k - 1);
      E.RunOne(After(0), EMPTY, steps, p, changes, u);
      var more := Do(p, u, Nth(k - 1)).1;
      FoldConcat(EMPTY, changes, more);
      assert more == [more[0]];
      FoldOne(u, Some(more[0]));
      EmptyFits();
      var born := EveryRunFits(EMPTY, 0, steps, Close);
      PushKeepsActivities(u, more[0].entry);
    }
  }

  lemma NothingFilled()
    ensures Filled(After(0), 0)
  {}

  lemma EmptyFits()
    ensures WellFormed(EMPTY) && IdsBelow(EMPTY.entries, 0)
  {}

  /** The run, and then a permission request about the hidden call, which shows it. */
  lemma AskingShowsHidden()
    ensures var call: Str := [MAX_STEPS];
      var (p, changes) := Run(After(0), EMPTY, FirstCalls(MAX_STEPS + 1));
      var r := Fold(EMPTY, changes);
      && r.Fits? && call in p.skipped && call !in p.tools
      && var (q, asked) := Do(p, r.t, AskAbout(call, NO_PATCH));
         call in q.skipped && |asked| == 1 && asked[0].Push? && ToolOf(asked[0]).Some?
         && ToolOf(asked[0]).value.callId == call
  {
    hide Fold;
    hide Run;
    hide Do;
    hide Filled;
    hide FirstCalls;
    Fill(MAX_STEPS);
    var steps := FirstCalls(MAX_STEPS + 1);
    CallsBefore(MAX_STEPS);
    var (p, changes) := Run(After(0), EMPTY, steps[..MAX_STEPS]);
    var u := Fold(EMPTY, changes).t;
    LastIsHidden(p, u);
    NthIsNew(p, MAX_STEPS);
    E.RunOne(After(0), EMPTY, steps, p, changes, u);
    assert changes + [] == changes;
    AskFresh(Run(After(0), EMPTY, steps).0, u, [MAX_STEPS]);
  }

  lemma CallsBefore(k: nat)
    requires k + 1 < 200
    ensures FirstCalls(k + 1)[..k] == FirstCalls(k) && FirstCalls(k + 1)[k] == Step(Nth(k), [])
  {}

  lemma {:induction false} ShotsNoTool(p: State, pictures: seq<Inserted>)
    ensures forall c :: c in Shots(p, pictures).1 ==> ToolOf(c).None?
  {
    if pictures != [] { ShotsNoTool(p, pictures[..|pictures| - 1]); }
  }

  lemma EmittedHides(p: State, t: Transcript, born: Births, op: Op, pictures: seq<Inserted>)
    requires Fit(p, t, born) && Apart(p) && !AsksHidden(p, op)
    ensures var (q, changes) := Emitted(p, t, op, pictures); Apart(q) && Hides(p, changes)
  {
    hide Fit;
    hide Do;
    hide Shots;
    hide AsksHidden;
    DoHides(p, t, born, op);
    EmittedOnly(p, t, op, pictures);
    var (q, changes) := Do(p, t, op);
    ShotsNoTool(q, pictures);
    if changes != [] { assert changes[0] in changes; }
  }

  /** Whether the run ever asks about a call it hides. */
  predicate AskedHidden(p: State, t: Transcript, steps: seq<Step>) {
    steps != [] &&
    (var before := steps[..|steps| - 1];
     AskedHidden(p, t, before) || AsksHidden(Run(p, t, before).0, steps[|steps| - 1].op))
  }

  /** In every run that asks about no hidden call, a hidden call has no card and gets none from the
      next update, until the projector stops hiding it. */
  lemma {:induction false} HiddenStaysHidden(t: Transcript, last: EntryId, steps: seq<Step>, next: Step)
    requires WellFormed(t) && IdsBelow(t.entries, last) && !AskedHidden(After(last), t, steps + [next])
    ensures var (p, changes) := Run(After(last), t, steps);
      && Apart(p) && Fold(t, changes).Fits?
      && Hides(p, Emitted(p, Fold(t, changes).t, next.op, next.pictures).1)
  {
    hide Emitted;
    hide Fit;
    hide WellFormed;
    hide IdsBelow;
    hide AsksHidden;
    hide Hides;
    hide Aimed;
    hide Rising;
    hide Do;
    assert (steps + [next])[..|steps|] == steps;
    var n := |steps| - 1;
    if steps != [] {
      assert steps[..n] + [steps[n]] == steps;
      HiddenStaysHidden(t, last, steps[..n], steps[n]);
      var bornBefore := EveryRunFits(t, last, steps[..n], Close);
      var (o, done) := Run(After(last), t, steps[..n]);
      EmittedHides(o, Fold(t, done).t, bornBefore, steps[n].op, steps[n].pictures);
    }
    var born := EveryRunFits(t, last, steps, Close);
    var (p, changes) := Run(After(last), t, steps);
    EmittedHides(p, Fold(t, changes).t, born, next.op, next.pictures);
  }
}
