/** What the projector says of activities (crates/sheprd-acp/src/project/activity.rs, `record` and
    `step`, through project.rs, `tagged`). */
module ActivityReports {
  import opened Basics
  import opened Transcripts
  import opened Texts
  import opened Projectors
  import D = Diff

  /** What a change says of an activity concerns none that has ended. */
  predicate SparesEnded(t: Transcript, change: Change) {
    change.SetActivity? ==> forall x :: x in t.activities && x.callId == change.activity.callId ==> x.IsRunning()
  }

  lemma Unique(activities: seq<Activity>, x: Activity, y: Activity)
    requires UniqueCalls(activities) && x in activities && y in activities && x.callId == y.callId
    ensures x == y
  {}

  lemma RecordedFrom(t: Transcript, z: Activity, y: Activity)
    requires UniqueCalls(t.activities) && Record(t, z).Fits? && y in Record(t, z).t.activities
    ensures y == z || (y in t.activities && y.callId != z.callId)
  {
    var after := Record(t, z).t.activities;
    var j :| 0 <= j < |after| && after[j] == y;
    var known := ActivityIndex(t.activities, z.callId);
    if known.Some? {
      if j != known.value { assert t.activities[j] == y; }
    } else if |t.activities| < MAX_ACTIVITIES {
      if j < |t.activities| { assert t.activities[j] == y; }
    } else {
      var gone := FirstEnded(t.activities).value;
      if j < |t.activities| - 1 { assert t.activities[if j < gone then j else j + 1] == y; }
    }
  }

  lemma OthersKeepActivities(t: Transcript, change: Change)
    requires Apply(t, change).Fits? && !change.SetActivity?
    ensures Apply(t, change).t.activities == t.activities
  {}

  /** An activity that ended is what it was, or gone, after any changes that spare the ended. */
  lemma {:induction false} EndedIsKept(t: Transcript, changes: seq<Change>, x: Activity, y: Activity)
    requires WellFormed(t) && Fold(t, changes).Fits? && x in t.activities && !x.IsRunning()
    requires forall c :: c in changes ==> SparesEnded(t, c)
    requires y in Fold(t, changes).t.activities && y.callId == x.callId
    ensures y == x
  {
    hide Apply;
    hide Record;
    if changes == [] {
      Unique(t.activities, x, y);
    } else {
      var n := |changes| - 1;
      var u := Fold(t, changes[..n]).t;
      FoldKeepsWellFormed(t, changes[..n]);
      assert changes[n] in changes && SparesEnded(t, changes[n]);
      if changes[n].SetActivity? {
        ApplyActivity(u, changes[n].activity);
        RecordedFrom(u, changes[n].activity, y);
      } else {
        OthersKeepActivities(u, changes[n]);
      }
      EndedIsKept(t, changes[..n], x, y);
    }
  }

  lemma RecordSpares(t: Transcript, call: Str, title: Str, report: Report, now: nat)
    requires UniqueCalls(t.activities)
    ensures forall c :: c in Listed(RecordChange(t, call, title, report, now)) ==> SparesEnded(t, c)
  {
    var r := RecordChange(t, call, title, report, now);
    ActivityOfIs(t, call);
    if r.Some? {
      forall x | x in t.activities && x.callId == call ensures x.IsRunning() {
        Unique(t.activities, x, ActivityOf(t, call).value);
      }
    }
  }

  lemma StepSpares(t: Transcript, parent: Str, title: Str)
    requires UniqueCalls(t.activities)
    ensures forall c :: c in Listed(StepChange(t, parent, title)) ==> SparesEnded(t, c)
  {
    var r := StepChange(t, parent, title);
    ActivityOfIs(t, parent);
    if r.Some? {
      forall x | x in t.activities && x.callId == parent ensures x.IsRunning() {
        Unique(t.activities, x, ActivityOf(t, parent).value);
      }
    }
  }

  lemma ActivityChangesSpare(t: Transcript, call: Str, tag: Tag, title: Str, now: nat)
    requires UniqueCalls(t.activities)
    ensures forall c :: c in ActivityChanges(t, call, tag, title, now) ==> SparesEnded(t, c)
  {
    hide RecordChange;
    hide StepChange;
    hide SparesEnded;
    if tag.activity.Some? { RecordSpares(t, call, title, tag.activity.value, now); }
    if tag.parent.Some? { StepSpares(t, tag.parent.value, title); }
  }

  lemma TaggedSpares(p: State, t: Transcript, call: Str, tag: Tag, now: nat, patch: Patch)
    requires UniqueCalls(t.activities)
    ensures forall c :: c in Tagged(p, t, call, tag, now, patch).1 ==> SparesEnded(t, c)
  {
    hide Admitted;
    hide PastCap;
    hide ActivityChanges;
    var (q, admitted) := Admitted(p, t, call, tag);
    if admitted {
      var change := ToolChange(q, t, call, Tagging(patch, tag, now)).1;
      assert !change.SetActivity?;
      hide ToolChange;
      if ToolOf(change).Some? { ActivityChangesSpare(t, call, tag, ToolOf(change).value.title, now); }
    } else {
      ActivityChangesSpare(t, call, tag, Patched(NewTool(call), patch).title, now);
    }
  }

  lemma DoSpares(p: State, t: Transcript, op: Op)
    requires UniqueCalls(t.activities)
    ensures forall c :: c in Do(p, t, op).1 ==> SparesEnded(t, c)
  {
    hide Tagged;
    hide RecordChange;
    if op.Call? || op.CallUpdate? {
      hide SparesEnded;
      TaggedSpares(p, t, op.call, op.tag, op.now, op.patch);
      TaggedSpares(p.(todos := p.todos - {op.call}), t, op.call, op.tag, op.now, op.patch);
      PlanSpares(t, op.plan);
      if op.CallUpdate? && op.tag.activity.Some? && ActivityOf(t, op.call).Some? {
        RecordSpares(t, op.call, ActivityOf(t, op.call).value.labelText, op.tag.activity.value, op.now);
      }
    }
  }

  lemma PlanSpares(t: Transcript, plan: Option<seq<PlanEntry>>)
    ensures plan.Some? ==> SparesEnded(t, SetPlan(plan.value))
  {}

  /** An activity that ended does not run again: whatever the projector is asked, in every state a
      run reaches, it is as it was or was dropped to make room. */
  lemma EndedStaysEnded(p: State, t: Transcript, born: Births, op: Op, x: Activity)
    requires Fit(p, t, born) && x in t.activities && !x.IsRunning()
    ensures var r := Fold(t, Do(p, t, op).1);
      r.Fits? && forall y :: y in r.t.activities && y.callId == x.callId ==> y == x
  {
    hide Do;
    hide Apply;
    var later := DoFits(p, t, born, op);
    DoSpares(p, t, op);
    var r := Fold(t, Do(p, t, op).1);
    forall y | y in r.t.activities && y.callId == x.callId ensures y == x {
      EndedIsKept(t, Do(p, t, op).1, x, y);
    }
  }

  // ----- an end that is lost

  lemma RecordThenFind(t: Transcript, z: Activity)
    requires UniqueCalls(t.activities) && Record(t, z).Fits?
    ensures ActivityOf(Record(t, z).t, z.callId) == Some(z)
  {
    var u := Record(t, z).t;
    var known := ActivityIndex(t.activities, z.callId);
    assert z in u.activities by {
      var after := u.activities;
      if known.Some? { assert after[known.value] == z; } else { assert after[|after| - 1] == z; }
    }
    ActivityOfIs(u, z.callId);
    if ActivityOf(u, z.callId).Some? { RecordedFrom(t, z, ActivityOf(u, z.callId).value); }
  }

  lemma RecordElsewhere(t: Transcript, z: Activity, call: Str)
    requires UniqueCalls(t.activities) && ActivityIndex(t.activities, z.callId).Some?
    requires Record(t, z).Fits? && call != z.callId
    ensures ActivityOf(Record(t, z).t, call) == ActivityOf(t, call)
  {
    var u := Record(t, z).t;
    var known := ActivityIndex(t.activities, z.callId).value;
    assert forall i :: 0 <= i < |t.activities| && i != known ==> u.activities[i] == t.activities[i];
    ActivityOfIs(u, call);
    ActivityOfIs(t, call);
    if ActivityOf(u, call).Some? { RecordedFrom(t, z, ActivityOf(u, call).value); }
    if ActivityOf(t, call).Some? {
      var i :| 0 <= i < |t.activities| && t.activities[i] == ActivityOf(t, call).value;
      assert u.activities[i] in u.activities;
      if ActivityOf(u, call).Some? { Unique(t.activities, ActivityOf(u, call).value, ActivityOf(t, call).value); }
    }
  }

  /** The activity changes of a call that reports its end: whether the activity then runs. */
  lemma EndOrStep(t0: Transcript, t: Transcript, call: Str, tag: Tag, title: Str, now: nat)
    requires WellFormed(t0) && WellFormed(t) && t.activities == t0.activities && RunningIn(t0, call)
    requires tag.activity.Some? && tag.activity.value.state != Running
    ensures var r := Fold(t, ActivityChanges(t0, call, tag, title, now));
      r.Fits? && ActivityOf(r.t, call).Some?
      && (ActivityOf(r.t, call).value.IsRunning() <==>
            tag.parent == Some(call) && ActivityOf(t0, call).value.detail != Some(ActivityClip(title)))
  {
    hide Apply;
    hide Record;
    hide ActivityClip;
    ActivityChangesFit(t0, t, call, tag, title, now);
    var report := tag.activity.value;
    ActivityOfIs(t0, call);
    assert ActivityOf(t0, call).value.Fits();
    var a := RecordChange(t0, call, title, report, now);
    var b := if tag.parent.None? then None else StepChange(t0, tag.parent.value, title);
    RecordFits(t0, call, title, report, now);
    var z := a.value.activity;
    RecordSame(t0, t, z);
    var mid := Record(t, z).t;
    FoldOne(t, a);
    ApplyActivity(t, z);
    FoldConcat(t, Listed(a), Listed(b));
    FoldOne(mid, b);
    RecordThenFind(t, z);
    if b.Some? {
      ApplyKeepsWellFormed(t, a.value);
      ApplyActivity(mid, b.value.activity);
      RecordThenFind(mid, b.value.activity);
      if tag.parent.value != call {
        ParentStays(t0, mid, a, tag.parent.value);
        RecordElsewhere(mid, b.value.activity, call);
      }
    }
  }

  /** The title the call has after the update: its card's, or its own, unless the update sets one. */
  function TitleAfter(p: State, t: Transcript, op: Op): Str
    requires op.Call? || op.CallUpdate?
  {
    var card := Shown(p, t, op.call);
    if op.call !in p.skipped && card.Some? && card.value.kind.ToolCall?
    then Get(op.patch.title, card.value.kind.tool.title)
    else Get(op.patch.title, op.call)
  }

  /** The call is tagged as a step of itself with a new line to show, and is not an update of a call
      without a card, which makes no step. */
  predicate OwnStep(p: State, t: Transcript, op: Op)
    requires op.Call? || op.CallUpdate?
  {
    && op.tag.parent == Some(op.call)
    && (op.CallUpdate? ==> Shown(p, t, op.call).Some?)
    && ActivityOf(t, op.call).Some?
    && ActivityOf(t, op.call).value.detail != Some(ActivityClip(TitleAfter(p, t, op)))
  }

  lemma TitleOfTool(p: State, t: Transcript, born: Births, op: Op, q: State)
    requires Fit(p, t, born) && (op.Call? || op.CallUpdate?)
    requires q.tools == p.tools && q.next == p.next && q.open == p.open && op.call !in p.skipped
    ensures var change := ToolChange(q, t, op.call, Tagging(op.patch, op.tag, op.now)).1;
      ToolOf(change).Some? && ToolOf(change).value.title == TitleAfter(p, t, op)
  {
    hide WellFormed;
    hide Card;
    WellFormedOrdered(t);
    ShownIsCard(p, t, op.call);
  }

  lemma EndOfTagged(p: State, q: State, t: Transcript, born: Births, op: Op)
    requires Fit(q, t, born) && (op.Call? || op.CallUpdate?) && RunningIn(t, op.call)
    requires op.tag.activity.Some? && op.tag.activity.value.state != Running
    requires q == p.(todos := q.todos)
    ensures var r := Fold(t, Tagged(q, t, op.call, op.tag, op.now, op.patch).1);
      r.Fits? && ActivityOf(r.t, op.call).Some?
      && (ActivityOf(r.t, op.call).value.IsRunning() <==>
            op.tag.parent == Some(op.call)
            && ActivityOf(t, op.call).value.detail != Some(ActivityClip(TitleAfter(p, t, op))))
  {
    hide Apply;
    hide Fit;
    hide ActivityChanges;
    hide PastCap;
    hide ToolChange;
    hide ActivityClip;
    hide RunningIn;
    FitWellFormed(q, t, born);
    var (a, admitted) := Admitted(q, t, op.call, op.tag);
    AdmittedOnlyCounts(q, t, op.call, op.tag);
    FitIgnores(q, a, t, t, born);
    if admitted {
      AdmittedNotSkipped(q, t, op.call, op.tag);
      var edit := Tagging(op.patch, op.tag, op.now);
      ToolFits(a, t, born, op.call, edit);
      var (b, change) := ToolChange(a, t, op.call, edit);
      TitleOfTool(q, t, born, op, a);
      SameTitle(p, q, t, op);
      var u := Apply(t, change).t;
      FitWellFormed(b, u, born);
      EndOrStep(t, u, op.call, op.tag, ToolOf(change).value.title, op.now);
      FoldCons(t, change, ActivityChanges(t, op.call, op.tag, ToolOf(change).value.title, op.now));
    } else {
      NewTitle(q, t, op);
      SameTitle(p, q, t, op);
      EndOrStep(t, t, op.call, op.tag, Patched(NewTool(op.call), op.patch).title, op.now);
    }
  }

  lemma AdmittedNotSkipped(p: State, t: Transcript, call: Str, tag: Tag)
    ensures Admitted(p, t, call, tag).1 ==> call !in p.skipped
    ensures !Admitted(p, t, call, tag).1 ==> call in p.skipped || call !in p.tools
  {}

  lemma SameTitle(p: State, q: State, t: Transcript, op: Op)
    requires (op.Call? || op.CallUpdate?) && q.tools == p.tools && q.skipped == p.skipped
    ensures TitleAfter(p, t, op) == TitleAfter(q, t, op)
  {}

  lemma NewTitle(p: State, t: Transcript, op: Op)
    requires (op.Call? || op.CallUpdate?) && !Admitted(p, t, op.call, op.tag).1
    ensures TitleAfter(p, t, op) == Patched(NewTool(op.call), op.patch).title
  {
    AdmittedNotSkipped(p, t, op.call, op.tag);
  }

  /** Over a whole update that reports the end of a running activity: the activity has ended after
      it if and only if the call is not also a step of itself as `OwnStep` says, because that step
      is made from the activity as it ran. */
  lemma EndIsKeptUnlessOwnStep(p: State, t: Transcript, born: Births, op: Op)
    requires Fit(p, t, born) && (op.Call? || op.CallUpdate?) && RunningIn(t, op.call)
    requires op.tag.activity.Some? && op.tag.activity.value.state != Running
    ensures var r := Fold(t, Do(p, t, op).1);
      r.Fits? && ActivityOf(r.t, op.call).Some? && (!ActivityOf(r.t, op.call).value.IsRunning() <==> !OwnStep(p, t, op))
  {
    hide Apply;
    hide Fit;
    hide Tagged;
    hide ActivityClip;
    hide TitleAfter;
    if op.Call? {
      EndOfTagged(p, p, t, born, op);
    } else {
      var q := if op.call in p.todos then p.(todos := p.todos - {op.call}) else p;
      FitWellFormed(p, t, born);
      FitIgnores(p, q, t, t, born);
      if Shown(q, t, op.call).None? {
        EndAlone(t, op.call, ActivityOf(t, op.call).value.labelText, op.tag.activity.value, op.now);
      } else {
        EndOfTagged(p, q, t, born, op);
      }
    }
  }

  lemma EndAlone(t: Transcript, call: Str, title: Str, report: Report, now: nat)
    requires WellFormed(t) && RunningIn(t, call) && report.state != Running
    ensures var r := Fold(t, Listed(RecordChange(t, call, title, report, now)));
      r.Fits? && ActivityOf(r.t, call).Some? && !ActivityOf(r.t, call).value.IsRunning()
  {
    EndOrStep(t, t, call, Tag(Some(report), None), title, now);
    var changes := Listed(RecordChange(t, call, title, report, now));
    assert changes + [] == changes;
    assert ActivityChanges(t, call, Tag(Some(report), None), title, now) == changes;
  }

  const SELF: Str := [7]

  function OneRunning(): Transcript {
    D.Reading(D.PLAIN, [], false).(activities := [Activity(SELF, None, None, SubagentActivity, [65], 0, Running)])
  }

  /** A sub-agent's own call, tagged as a step of itself, reports its end, and runs on. */
  lemma OwnStepRunsOn()
    ensures var tag := Tag(Some(Report(None, SubagentActivity, None, Finished)), Some(SELF));
      var op := Call(SELF, tag, Patch(None, None, Some(Completed), None, None), 1, false, None);
      var r := Fold(OneRunning(), Do(After(0), OneRunning(), op).1);
      Fit(After(0), OneRunning(), map[]) && RunningIn(OneRunning(), SELF)
      && r.Fits? && ActivityOf(r.t, SELF).Some? && ActivityOf(r.t, SELF).value.IsRunning()
  {
    hide Do;
    hide Fold;
    hide ActivityClip;
    var t := OneRunning();
    var tag := Tag(Some(Report(None, SubagentActivity, None, Finished)), Some(SELF));
    var op := Call(SELF, tag, Patch(None, None, Some(Completed), None, None), 1, false, None);
    assert ActivityIndex(t.activities, SELF) == Some(0);
    assert Fit(After(0), t, map[]);
    EndIsKeptUnlessOwnStep(After(0), t, map[], op);
  }
}
