/** What the entries, cards and activities that a projector makes show (crates/sheprd-acp/src/project.rs
    and project/activity.rs). */
module ProjectedCards {
  import opened Basics
  import opened Transcripts
  import opened Texts
  import opened Projectors

  // ----- cards

  /** The card of a call after an update: what the update names, else what the card it replaces had,
      else what a new card starts with. */
  ghost predicate CardShows(card: Tool, call: Str, patch: Patch, had: Option<Tool>) {
    && card.callId == call
    && (match patch.title
        case Some(title) => card.title == title
        case None => card.title == if had.Some? then had.value.title else call)
    && (match patch.status
        case Some(status) => card.status == status
        case None => card.status == if had.Some? then had.value.status else Pending)
    && (match patch.content
        case Some(content) => card.content == content
        case None => card.content == if had.Some? then had.value.content else [])
    && (match patch.locations
        case Some(locations) => card.locations == locations
        case None => card.locations == if had.Some? then had.value.locations else [])
  }

  predicate OfSubagent(tag: Tag) { tag.activity.Some? && tag.activity.value.kind == SubagentActivity }

  ghost predicate KindShows(card: Tool, patch: Patch, tag: Tag, had: Option<Tool>) {
    if OfSubagent(tag) then card.kind == Subagent
    else match patch.kind
      case Some(kind) => card.kind == kind
      case None => card.kind == if had.Some? then had.value.kind else OtherTool
  }

  /** Whose step it is, and since when it runs; a card once timed keeps its time. */
  ghost predicate MarksShow(card: Tool, edit: Edit, had: Option<Tool>) {
    var parent := if had.Some? then had.value.parent else None;
    var started := if had.Some? then had.value.startedMs else None;
    && (card.parent ==
          if edit.Tagging? && edit.tag.parent.Some? then Some(ActivityClip(edit.tag.parent.value)) else parent)
    && (card.startedMs ==
          if started.None? && edit.Tagging? && !Ended(card.status) then Some(edit.now) else started)
  }

  ghost predicate EditShows(card: Tool, call: Str, edit: Edit, had: Option<Tool>) {
    && CardShows(card, call, edit.patch, had)
    && KindShows(card, edit.patch, if edit.Plain? then UNTAGGED else edit.tag, had)
    && MarksShow(card, edit, had)
  }

  lemma EditedShows(call: Str, edit: Edit, had: Option<Tool>)
    requires had.Some? ==> had.value.callId == call
    ensures EditShows(Edited(if had.Some? then had.value else NewTool(call), edit), call, edit, had)
  {}

  /** The card a change replaces, when it replaces one. */
  ghost predicate Replaced(t: Transcript, change: Change, had: Option<Tool>) {
    if change.Replace? then had.Some? && Entry(change.entry.id, ToolCall(had.value)) in t.entries
    else change.Push? && had.None?
  }

  lemma ToolShows(p: State, t: Transcript, born: Births, call: Str, edit: Edit) returns (had: Option<Tool>)
    requires Fit(p, t, born)
    ensures var change := ToolChange(p, t, call, edit).1;
      ToolOf(change).Some? && Replaced(t, change, had) && EditShows(ToolOf(change).value, call, edit, had)
    ensures if had.None? then call !in p.tools
      else call in p.tools && ToolChange(p, t, call, edit).1.entry.id == p.tools[call]
  {
    hide WellFormed;
    hide EditShows;
    hide Edited;
    WellFormedOrdered(t);
    ShownIsCard(p, t, call);
    had := None;
    if call in p.tools {
      var e := Shown(p, t, call).value;
      had := Some(e.kind.tool);
      assert Entry(e.id, ToolCall(had.value)) == e;
    }
    EditedShows(call, edit, had);
  }

  /** How an operation edits its call's card. */
  function EditOf(op: Op): Edit
    requires op.Call? || op.CallUpdate? || op.AskAbout?
  {
    if op.AskAbout? then Plain(op.patch) else Tagging(op.patch, op.tag, op.now)
  }

  lemma NoCardInActivities(t: Transcript, call: Str, tag: Tag, title: Str, now: nat)
    ensures forall c :: c in ActivityChanges(t, call, tag, title, now) ==> c.SetActivity?
  {
    hide RecordChange;
    hide StepChange;
  }

  /** A tagged call's only card change is its first. */
  lemma TaggedCard(p: State, t: Transcript, call: Str, tag: Tag, now: nat, patch: Patch)
    ensures var (q, admitted) := Admitted(p, t, call, tag);
      var changes := Tagged(p, t, call, tag, now, patch).1;
      var card := ToolChange(q, t, call, Tagging(patch, tag, now)).1;
      && (admitted ==> changes != [] && changes[0] == card && forall c :: c in changes[1..] ==> c.SetActivity?)
      && (!admitted ==> forall c :: c in changes ==> c.SetActivity?)
  {
    hide ActivityChanges;
    hide ToolChange;
    hide Admitted;
    hide PastCap;
    var (q, admitted) := Admitted(p, t, call, tag);
    var change := ToolChange(q, t, call, Tagging(patch, tag, now)).1;
    if admitted {
      if ToolOf(change).Some? { NoCardInActivities(t, call, tag, ToolOf(change).value.title, now); }
    } else {
      NoCardInActivities(t, call, tag, Patched(NewTool(call), patch).title, now);
    }
  }

  /** How many of the sub-agent's steps were shown, as far as is remembered. */
  function StepsSoFar(p: State, t: Transcript, parent: Str): nat {
    if parent in p.steps && (|p.steps| <= MAX_ACTIVITIES_TRACKED || ActivityOf(t, parent).Some?)
    then p.steps[parent] else 0
  }

  /** The call is shown: it is not hidden, and it has a card, is no one's step, or is one of the first
      64 steps. */
  predicate MayShow(p: State, t: Transcript, call: Str, tag: Tag) {
    call !in p.skipped && (call in p.tools || tag.parent.None? || StepsSoFar(p, t, tag.parent.value) < MAX_STEPS)
  }

  lemma AdmittedExactly(p: State, t: Transcript, call: Str, tag: Tag)
    ensures Admitted(p, t, call, tag).1 <==> MayShow(p, t, call, tag)
    ensures MayShow(p, t, call, tag) ==> call !in p.skipped
  {}

  /** The to-do list takes the call, so it gets no card. */
  predicate ForTodos(p: State, op: Op) {
    || (op.Call? && op.tag == UNTAGGED && op.todo && |p.todos| < MAX_SKIPPED)
    || (op.CallUpdate? && op.tag == UNTAGGED && op.stays && op.call in p.todos)
  }

  /** Only the activity is left of the call: its card is gone. */
  predicate OnlyActivity(p: State, t: Transcript, op: Op) {
    op.CallUpdate? && op.tag.activity.Some? && op.call !in p.tools && ActivityOf(t, op.call).Some?
  }

  predicate GetsCard(p: State, t: Transcript, op: Op) {
    || op.AskAbout?
    || ((op.Call? || op.CallUpdate?) && !ForTodos(p, op) && !OnlyActivity(p, t, op) && MayShow(p, t, op.call, op.tag))
  }

  lemma MayShowIgnores(p: State, t: Transcript, call: Str, tag: Tag, todos: set<Str>)
    ensures MayShow(p.(todos := todos), t, call, tag) <==> MayShow(p, t, call, tag)
  {}

  /** An operation touches a card exactly when it asks about a call or reports one that may be shown;
      then its first change is that card, replaced where the call is tracked and pushed otherwise,
      showing what the operation says, and no other change touches an entry. */
  lemma DoShows(p: State, t: Transcript, born: Births, op: Op) returns (had: Option<Tool>)
    requires Fit(p, t, born) && (op.Call? || op.CallUpdate? || op.AskAbout?)
    ensures var changes := Do(p, t, op).1;
      if GetsCard(p, t, op)
      then
        && changes != [] && ToolOf(changes[0]).Some? && Replaced(t, changes[0], had)
        && EditShows(ToolOf(changes[0]).value, op.call, EditOf(op), had)
        && (had.Some? <==> op.call in p.tools)
        && forall c :: c in changes[1..] ==> c.SetActivity?
      else forall c :: c in changes ==> c.SetActivity? || c.SetPlan?
  {
    hide Fit;
    hide EditShows;
    hide Replaced;
    hide MayShow;
    had := None;
    if op.AskAbout? {
      hide ToolChange;
      had := ToolShows(p, t, born, op.call, EditOf(op));
    } else {
      var q := Routed(p, t, born, op);
      hide Do;
      hide Tagged;
      hide RecordChange;
      if !ForTodos(p, op) && !OnlyActivity(p, t, op) { had := TaggedShows(q, t, born, op); }
    }
  }

  /** Which way a call or an update goes. */
  lemma Routed(p: State, t: Transcript, born: Births, op: Op) returns (q: State)
    requires Fit(p, t, born) && (op.Call? || op.CallUpdate?)
    ensures var changes := Do(p, t, op).1;
      if ForTodos(p, op) then forall c :: c in changes ==> c.SetPlan?
      else if OnlyActivity(p, t, op) then
        var title := ActivityOf(t, op.call).value.labelText;
        changes == Listed(RecordChange(t, op.call, title, op.tag.activity.value, op.now))
      else Do(p, t, op) == Tagged(q, t, op.call, op.tag, op.now, op.patch)
    ensures q == p.(todos := q.todos) && Fit(q, t, born)
    ensures MayShow(q, t, op.call, op.tag) <==> MayShow(p, t, op.call, op.tag)
  {
    hide Fit;
    hide Tagged;
    hide RecordChange;
    hide MayShow;
    FitShown(p, t, born, op.call);
    q := if op.CallUpdate? && op.call in p.todos then p.(todos := p.todos - {op.call}) else p;
    FitWellFormed(p, t, born);
    FitIgnores(p, q, t, t, born);
    MayShowIgnores(p, t, op.call, op.tag, q.todos);
    assert Shown(q, t, op.call) == Shown(p, t, op.call);
  }

  lemma FitShown(p: State, t: Transcript, born: Births, call: Str)
    requires Fit(p, t, born)
    ensures Shown(p, t, call).Some? <==> call in p.tools
  {
    hide WellFormed;
    WellFormedOrdered(t);
    ShownIsCard(p, t, call);
  }

  lemma TaggedShows(p: State, t: Transcript, born: Births, op: Op) returns (had: Option<Tool>)
    requires Fit(p, t, born) && (op.Call? || op.CallUpdate?)
    ensures var changes := Tagged(p, t, op.call, op.tag, op.now, op.patch).1;
      if MayShow(p, t, op.call, op.tag)
      then
        && changes != [] && ToolOf(changes[0]).Some? && Replaced(t, changes[0], had)
        && EditShows(ToolOf(changes[0]).value, op.call, EditOf(op), had)
        && (had.Some? <==> op.call in p.tools)
        && forall c :: c in changes[1..] ==> c.SetActivity?
      else forall c :: c in changes ==> c.SetActivity?
  {
    hide Fit;
    hide EditShows;
    hide Tagged;
    hide ToolChange;
    hide Admitted;
    hide MayShow;
    TaggedCard(p, t, op.call, op.tag, op.now, op.patch);
    AdmittedExactly(p, t, op.call, op.tag);
    var q := Admitted(p, t, op.call, op.tag).0;
    AdmittedOnlyCounts(p, t, op.call, op.tag);
    FitWellFormed(p, t, born);
    FitIgnores(p, q, t, t, born);
    had := ToolShows(q, t, born, op.call, EditOf(op));
  }

  // ----- activities

  /** What is shown of a sub-agent or shell once it was reported on. */
  ghost predicate ActivityShows(a: Activity, call: Str, title: Str, report: Report, known: Option<Activity>, now: nat) {
    && a.callId == call && a.kind == report.kind && a.state == report.state
    && (a.finishedMs == if report.state == Running then None else Some(now))
    && (a.startedMs == if known.Some? then known.value.startedMs else now)
    && (match report.detail
        case Some(detail) => a.detail == Some(ActivityClip(detail))
        case None => a.detail == if known.Some? then known.value.detail else None)
    && (match report.name
        case Some(name) => a.labelText == ActivityClip(name)
        case None => a.labelText == if known.Some? then known.value.labelText else ActivityClip(title))
  }

  /** A report is taken of an activity that runs, or of a new one that runs and has room. */
  ghost predicate TakesReport(t: Transcript, call: Str, report: Report) {
    var known := ActivityOf(t, call);
    && |call| <= MAX_ACTIVITY_TEXT
    && if known.Some? then known.value.IsRunning()
       else report.state == Running
            && (|t.activities| < MAX_ACTIVITIES || exists x :: x in t.activities && !x.IsRunning())
  }

  /** What is recorded shows the report, and nothing is only when the report is not taken or says
      nothing new. */
  lemma RecordShows(t: Transcript, call: Str, title: Str, report: Report, now: nat)
    ensures var change, known := RecordChange(t, call, title, report, now), ActivityOf(t, call);
      && (change.Some? ==> ActivityShows(change.value.activity, call, title, report, known, now))
      && (change.None? <==>
            !TakesReport(t, call, report)
            || (known.Some? && ActivityShows(known.value, call, title, report, known, now)))
  {
    hide ActivityClip;
    if x :| x in t.activities && !x.IsRunning() {
      var i :| 0 <= i < |t.activities| && t.activities[i] == x;
    }
    if FirstEnded(t.activities).Some? { assert t.activities[FirstEnded(t.activities).value] in t.activities; }
  }

  /** A running sub-agent shows its latest step, and only that changes. */
  lemma StepShows(t: Transcript, parent: Str, title: Str)
    ensures var change, known := StepChange(t, parent, title), ActivityOf(t, parent);
      && (change.Some? ==>
            && known.Some? && known.value.IsRunning()
            && change.value.activity.detail == Some(ActivityClip(title))
            && change.value.activity.(detail := known.value.detail) == known.value)
      && (change.None? <==>
            known.None? || !known.value.IsRunning() || known.value.detail == Some(ActivityClip(title)))
  {}

  /** The title the operation leaves the call with. */
  ghost predicate Titled(t: Transcript, p: State, op: Op, title: Str)
    requires op.Call? || op.CallUpdate?
  {
    match op.patch.title
    case Some(named) => title == named
    case None =>
      if op.call in p.tools && op.call !in p.skipped then
        exists e :: e in t.entries && e.id == p.tools[op.call] && e.kind.ToolCall? && title == e.kind.tool.title
      else title == op.call
  }

  /** Unless the to-do list takes it, what a call's tag says of activities is recorded: its report, then
      its step, with the title the card has then. */
  lemma ReportsReach(p: State, t: Transcript, born: Births, op: Op) returns (title: Str)
    requires Fit(p, t, born) && (op.Call? || op.CallUpdate?) && !ForTodos(p, op)
    ensures var changes := Do(p, t, op).1;
      if OnlyActivity(p, t, op)
      then changes == Listed(RecordChange(t, op.call, title, op.tag.activity.value, op.now))
      else
        && Titled(t, p, op, title)
        && changes[if GetsCard(p, t, op) && changes != [] then 1 else 0..]
           == Listed(if op.tag.activity.None? then None
                     else RecordChange(t, op.call, title, op.tag.activity.value, op.now))
              + Listed(if op.tag.parent.None? then None else StepChange(t, op.tag.parent.value, title))
  {
    hide Fit;
    hide MayShow;
    hide Titled;
    var q := Routed(p, t, born, op);
    hide Do;
    hide Tagged;
    hide RecordChange;
    hide StepChange;
    title := op.call;
    if OnlyActivity(p, t, op) {
      title := ActivityOf(t, op.call).value.labelText;
    } else {
      title := TaggedReports(q, t, born, op);
      TitledIgnores(t, p, q, op, title);
    }
  }

  lemma TitledIgnores(t: Transcript, p: State, q: State, op: Op, title: Str)
    requires (op.Call? || op.CallUpdate?) && q == p.(todos := q.todos) && Titled(t, q, op, title)
    ensures Titled(t, p, op, title)
  {}

  lemma TaggedReports(p: State, t: Transcript, born: Births, op: Op) returns (title: Str)
    requires Fit(p, t, born) && (op.Call? || op.CallUpdate?)
    ensures var changes := Tagged(p, t, op.call, op.tag, op.now, op.patch).1;
      && Titled(t, p, op, title)
      && (MayShow(p, t, op.call, op.tag) ==> changes != [])
      && changes[if MayShow(p, t, op.call, op.tag) then 1 else 0..]
         == ActivityChanges(t, op.call, op.tag, title, op.now)
  {
    hide ActivityChanges;
    hide ToolChange;
    hide Admitted;
    hide MayShow;
    hide Fit;
    AdmittedExactly(p, t, op.call, op.tag);
    var (q, admitted) := Admitted(p, t, op.call, op.tag);
    AdmittedOnlyCounts(p, t, op.call, op.tag);
    if admitted {
      FitWellFormed(p, t, born);
      FitIgnores(p, q, t, t, born);
      var had := ToolShows(q, t, born, op.call, EditOf(op));
      var change := ToolChange(q, t, op.call, EditOf(op)).1;
      title := ToolOf(change).value.title;
      ToolFits(q, t, born, op.call, EditOf(op));
      if had.Some? { assert Entry(change.entry.id, ToolCall(had.value)) in t.entries; }
    } else {
      title := Patched(NewTool(op.call), op.patch).title;
      NotShown(p, t, op.call, op.tag);
    }
  }

  lemma NotShown(p: State, t: Transcript, call: Str, tag: Tag)
    requires !MayShow(p, t, call, tag)
    ensures call !in p.tools || call in p.skipped
  {}

  // ----- entries of other kinds, plans and modes

  /** The entry an operation adds, when it is one that always adds one. */
  function Adds(op: Op): Option<EntryKind> {
    match op
    case Shot(author, image) => Some(Picture(author, image))
    case Say(level, text) => Some(Notice([], None, level, Bounded(text)))
    case EndTurn(summary) => Some(Turned(summary))
    case Prompt(text, files) => Some(User(Bounded(text), files))
    case _ => None
  }

  /** After any other operation the transcript is as it was but for what was asked: an entry added last
      that ends the streaming one, a plan, a mode of those there are, or the oldest entries gone. */
  lemma DoesAsAsked(p: State, t: Transcript, born: Births, op: Op)
    requires Fit(p, t, born) && !op.Chunk? && !op.Call? && !op.CallUpdate? && !op.AskAbout?
    ensures var (q, changes) := Do(p, t, op);
      var r := Fold(t, changes);
      && r.Fits?
      && (Adds(op).Some? ==>
            && r.t == t.(entries := t.entries + [Entry(p.next + 1, Adds(op).value)])
            && q == p.(open := None, next := p.next + 1))
      && (op.Close? ==> r.t == t && q == p.(open := None))
      && (op.NewPlan? ==> r.t == t.(details := t.details.(plan := op.entries)) && q == p.(planned := true))
      && (op.NewMode? ==>
            && q == p
            && r.t == if t.details.modes.None? then t
                      else t.(details := t.details.(modes := Some(t.details.modes.value.(current := op.mode)))))
      && (op.Trim? ==>
            && (forall e :: e in r.t.entries <==> e in t.entries && e.id >= op.before)
            && r.t == t.(entries := r.t.entries, truncated := t.truncated || |r.t.entries| < |t.entries|)
            && q == p.(tools := q.tools)
            && forall call :: call in q.tools <==> call in p.tools && p.tools[call] >= op.before)
  {
    hide Apply;
    hide WellFormed;
    hide Card;
    hide Bounded;
    if Adds(op).Some? {
      AddsOne(p, t, born, Adds(op).value);
    } else if op.NewPlan? {
      FoldOne(t, Some(SetPlan(op.entries)));
      PlanSets(t, op.entries);
    } else if op.NewMode? && t.details.modes.Some? {
      FoldOne(t, Some(CurrentMode(op.mode)));
      ModeSets(t, op.mode);
    } else if op.Trim? {
      FoldOne(t, Some(Truncate(op.before)));
      FitWellFormed(p, t, born);
      WellFormedOrdered(t);
      TrimSets(t, op.before);
    }
  }

  lemma AddsOne(p: State, t: Transcript, born: Births, kind: EntryKind)
    requires Fit(p, t, born) && ValidKind(kind)
    ensures Fold(t, [Push(Entry(p.next + 1, kind))]) == Fits(t.(entries := t.entries + [Entry(p.next + 1, kind)]))
  {
    hide WellFormed;
    FoldOne(t, Some(Push(Entry(p.next + 1, kind))));
    if t.entries != [] { LastIsBelow(t, p.next); }
    PushAfter(t, Entry(p.next + 1, kind));
  }

  lemma PlanSets(t: Transcript, plan: seq<PlanEntry>)
    ensures Apply(t, SetPlan(plan)) == Fits(t.(details := t.details.(plan := plan)))
  {}

  lemma ModeSets(t: Transcript, mode: Str)
    requires t.details.modes.Some?
    ensures Apply(t, CurrentMode(mode))
         == Fits(t.(details := t.details.(modes := Some(t.details.modes.value.(current := mode)))))
  {}

  lemma TrimSets(t: Transcript, before: EntryId)
    requires Ordered(t.entries)
    ensures var r := Apply(t, Truncate(before));
      && r.Fits? && (forall e :: e in r.t.entries <==> e in t.entries && e.id >= before)
      && r.t == t.(entries := r.t.entries, truncated := t.truncated || |r.t.entries| < |t.entries|)
  {
    ApplyTruncate(t, before);
    var n := LeadingBefore(t.entries, before);
    assert t.entries[0..] == t.entries;
    hide Apply;
    SuffixFrom(t.entries, before, n);
  }

  lemma SuffixFrom(entries: seq<Entry>, before: EntryId, n: nat)
    requires Ordered(entries) && n == LeadingBefore(entries, before)
    ensures forall e :: e in entries[n..] <==> e in entries && e.id >= before
  {
    forall e | e in entries && e.id >= before ensures e in entries[n..] {
      var i :| 0 <= i < |entries| && entries[i] == e;
      assert entries[n..][i - n] == e;
    }
    forall e | e in entries[n..] ensures e in entries && e.id >= before {
      var i :| 0 <= i < |entries| - n && entries[n..][i] == e;
      assert entries[n + i] == e;
    }
  }

  /** A call is followed as a to-do from when the list takes it until an update ends it or stops being
      one. */
  ghost predicate Follows(p: State, q: State, op: Op, x: Str) {
    x in q.todos <==>
      || (ForTodos(p, op) && op.Call? && x == op.call)
      || (x in p.todos && !(op.CallUpdate? && op.call == x && (!ForTodos(p, op) || EndsCall(op))))
  }

  predicate EndsCall(op: Op)
    requires op.CallUpdate?
  {
    op.patch.status.Some? && Ended(op.patch.status.value)
  }

  /** A call the to-do list takes sets the plan, unless the agent plans itself, and nothing else. */
  lemma TodosAreFollowed(p: State, t: Transcript, op: Op)
    ensures var (q, changes) := Do(p, t, op);
      && (ForTodos(p, op) ==> changes == if p.planned || op.plan.None? then [] else [SetPlan(op.plan.value)])
      && (q.planned <==> p.planned || op.NewPlan?)
      && forall x :: Follows(p, q, op, x)
  {
    hide Follows;
    if op.Call? {
      CallTodos(p, t, op);
    } else if op.CallUpdate? {
      UpdateTodos(p, t, op);
    } else {
      OtherTodos(p, t, op);
    }
  }

  lemma CallTodos(p: State, t: Transcript, op: Op)
    requires op.Call?
    ensures var (q, changes) := Do(p, t, op);
      && (ForTodos(p, op) ==> changes == if p.planned || op.plan.None? then [] else [SetPlan(op.plan.value)])
      && q.planned == p.planned && forall x :: Follows(p, q, op, x)
  {
    TaggedRemembers(p, t, op.call, op.tag, op.now, op.patch);
    hide Tagged;
  }

  lemma UpdateTodos(p: State, t: Transcript, op: Op)
    requires op.CallUpdate?
    ensures var (q, changes) := Do(p, t, op);
      && (ForTodos(p, op) ==> changes == if p.planned || op.plan.None? then [] else [SetPlan(op.plan.value)])
      && q.planned == p.planned && forall x :: Follows(p, q, op, x)
  {
    UpdateKeeps(p, t, op);
    hide Do;
  }

  function LeftTodos(p: State, op: Op): set<Str>
    requires op.CallUpdate?
  {
    if op.call in p.todos && (!ForTodos(p, op) || EndsCall(op)) then p.todos - {op.call} else p.todos
  }

  lemma UpdateKeeps(p: State, t: Transcript, op: Op)
    requires op.CallUpdate?
    ensures var (q, changes) := Do(p, t, op);
      && q.planned == p.planned && q.todos == LeftTodos(p, op)
      && (ForTodos(p, op) ==> changes == if p.planned || op.plan.None? then [] else [SetPlan(op.plan.value)])
  {
    TaggedRemembers(p.(todos := LeftTodos(p, op)), t, op.call, op.tag, op.now, op.patch);
    assert p.(todos := p.todos) == p;
    hide Tagged;
    hide RecordChange;
    hide ActivityOf;
    hide Shown;
  }

  lemma OtherTodos(p: State, t: Transcript, op: Op)
    requires !op.Call? && !op.CallUpdate?
    ensures var q := Do(p, t, op).0; (q.planned <==> p.planned || op.NewPlan?) && forall x :: Follows(p, q, op, x)
  {
    hide ToolChange;
    hide Bounded;
    hide Clip;
    if op.AskAbout? { ToolRemembers(p, t, op.call, Plain(op.patch)); }
  }

  lemma ToolRemembers(p: State, t: Transcript, call: Str, edit: Edit)
    ensures var q := ToolChange(p, t, call, edit).0; q.todos == p.todos && q.planned == p.planned
  {}

  lemma TaggedRemembers(p: State, t: Transcript, call: Str, tag: Tag, now: nat, patch: Patch)
    ensures var q := Tagged(p, t, call, tag, now, patch).0; q.todos == p.todos && q.planned == p.planned
  {
    hide ActivityChanges;
    hide ToolChange;
    hide Patched;
    var (q, admitted) := Admitted(p, t, call, tag);
    AdmittedOnlyCounts(p, t, call, tag);
    hide Admitted;
    ToolRemembers(q, t, call, Tagging(patch, tag, now));
    PastCapOnlySkips(q, t, call, tag, Patched(NewTool(call), patch).status);
    hide PastCap;
  }

  // ----- pictures before an entry

  /** What the changes push, in order. */
  function Pushed(changes: seq<Change>): seq<EntryKind> {
    if changes == [] then []
    else
      var last := changes[|changes| - 1];
      Pushed(changes[..|changes| - 1]) + if last.Push? then [last.entry.kind] else []
  }

  function Images(pictures: seq<Inserted>): seq<EntryKind> {
    if pictures == [] then []
    else Images(pictures[..|pictures| - 1]) + [Picture(ByAgent, pictures[|pictures| - 1].image)]
  }

  lemma PushedSnoc(changes: seq<Change>, last: Change)
    ensures Pushed(changes + [last]) == Pushed(changes) + if last.Push? then [last.entry.kind] else []
  {
    assert (changes + [last])[..|changes|] == changes;
  }

  lemma {:induction false} PushedConcat(a: seq<Change>, b: seq<Change>)
    ensures Pushed(a + b) == Pushed(a) + Pushed(b)
  {
    if b == [] {
      assert a + b == a;
    } else {
      var n := |b| - 1;
      PushedConcat(a, b[..n]);
      assert (a + b)[..|a| + n] == a + b[..n];
    }
  }

  lemma {:induction false} ShotsPush(p: State, pictures: seq<Inserted>)
    ensures Pushed(Shots(p, pictures).1) == Images(pictures)
  {
    if pictures != [] {
      var n := |pictures| - 1;
      ShotsPush(p, pictures[..n]);
      var (q, before) := Shots(p, pictures[..n]);
      PushedConcat(before, OneShot(q, pictures[n]).1);
      OnePush(q, pictures[n]);
      hide OneShot;
      hide Pushed;
    }
  }

  lemma OnePush(p: State, picture: Inserted)
    ensures Pushed(OneShot(p, picture).1) == [Picture(ByAgent, picture.image)]
  {
    var entry := Entry(p.next + 1, Picture(ByAgent, picture.image));
    if picture.cut.None? {
      assert OneShot(p, picture).1 == [Push(entry)];
      PushedOne(Push(entry));
    } else {
      assert OneShot(p, picture).1 == [Push(entry), Truncate(picture.cut.value)];
      PushedTwo(Push(entry), Truncate(picture.cut.value));
    }
    hide OneShot;
    hide Pushed;
  }

  lemma PushedOne(c: Change)
    ensures Pushed([c]) == if c.Push? then [c.entry.kind] else []
  {
    PushedSnoc([], c);
    assert [] + [c] == [c];
  }

  lemma PushedTwo(c: Change, d: Change)
    requires c.Push? && !d.Push?
    ensures Pushed([c, d]) == [c.entry.kind]
  {
    PushedOne(c);
    PushedSnoc([c], d);
    assert [c] + [d] == [c, d];
    hide Pushed;
  }

  /** The pictures a message linked come in order before what the operation pushes, which is what it
      would have been without them. */
  lemma PicturesComeFirst(p: State, t: Transcript, op: Op, pictures: seq<Inserted>)
    requires var changes := Do(p, t, op).1; changes != [] && changes[0].Push?
    ensures Pushed(Emitted(p, t, op, pictures).1) == Images(pictures) + Pushed(Do(p, t, op).1)
  {
    hide Do;
    var (q, changes) := Do(p, t, op);
    if pictures == [] {
      assert [] + Pushed(changes) == Pushed(changes);
    } else {
      var (r, shots) := Shots(q, pictures);
      var first := Push(changes[0].entry.(id := Renumber(r, changes[0].entry.id).1));
      ShotsPush(q, pictures);
      PushedConcat(shots, [first] + changes[1..]);
      PushedConcat([first], changes[1..]);
      PushedConcat([changes[0]], changes[1..]);
      PushedSnoc([], first);
      PushedSnoc([], changes[0]);
      assert [] + [first] == [first] && [] + [changes[0]] == [changes[0]];
      assert changes == [changes[0]] + changes[1..];
    }
  }
}
