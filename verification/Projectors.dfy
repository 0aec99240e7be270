/** ACP updates into transcript changes (crates/sheprd-acp/src/project.rs and
    project/activity.rs). */
module Projectors {
  import opened Basics
  import opened Transcripts
  import opened Texts

  const MAX_ACTIVITIES_TRACKED: nat := 2 * MAX_ACTIVITIES
  const MAX_STEPS: nat := 64
  const MAX_SKIPPED: nat := 1024

  datatype Stream = UserStream | AgentStream | ThoughtStream
  datatype Open = Open(entry: EntryId, message: Option<Str>, stream: Stream)

  /** What a bridge says about a call beyond ACP. */
  datatype Report = Report(detail: Option<Str>, kind: ActivityKind, name: Option<Str>, state: ActivityState)
  datatype Tag = Tag(activity: Option<Report>, parent: Option<Str>)
  const UNTAGGED := Tag(None, None)

  /** The fields an update sets; a whole call sets all of them. */
  datatype Patch = Patch(
    title: Option<Str>, kind: Option<ToolKind>, status: Option<ToolStatus>,
    content: Option<seq<ToolContent>>, locations: Option<seq<Str>>)

  /** What the projector remembers between updates. */
  datatype State = State(
    next: nat, open: Option<Open>, planned: bool, skipped: map<Str, Str>, steps: map<Str, nat>,
    todos: set<Str>, tools: map<Str, EntryId>)

  function Get<T>(value: Option<T>, or_: T): T { if value.Some? then value.value else or_ }

  // ----- what happens to a tool

  function Patched(tool: Tool, patch: Patch): Tool {
    tool.(title := Get(patch.title, tool.title), kind := Get(patch.kind, tool.kind),
          status := Get(patch.status, tool.status), content := Get(patch.content, tool.content),
          locations := Get(patch.locations, tool.locations))
  }

  function Marked(tool: Tool, tag: Tag): Tool {
    var kinded := if tag.activity.Some? && tag.activity.value.kind == SubagentActivity
                  then tool.(kind := Subagent) else tool;
    if tag.parent.Some? then kinded.(parent := Some(ActivityClip(tag.parent.value))) else kinded
  }

  function Started(tool: Tool, now: nat): Tool {
    if (tool.status == Pending || tool.status == InProgress) && tool.startedMs.None?
    then tool.(startedMs := Some(now)) else tool
  }

  /** A permission request only patches; a call or an update is also marked and timed. */
  datatype Edit = Plain(patch: Patch) | Tagging(patch: Patch, tag: Tag, now: nat)

  function Edited(tool: Tool, edit: Edit): (r: Tool)
    ensures r.callId == tool.callId
  {
    var patched := Patched(tool, edit.patch);
    if edit.Plain? then patched else Started(Marked(patched, edit.tag), edit.now)
  }

  function NewTool(call: Str): Tool { Tool(call, [], OtherTool, [], None, None, Pending, call) }

  // ----- entries

  function StreamKind(stream: Stream, text: Str): EntryKind {
    match stream
    case UserStream => User(text, 0)
    case AgentStream => Agent(text)
    case ThoughtStream => Thought(text)
  }

  predicate OfStream(kind: EntryKind, stream: Stream) {
    match stream
    case UserStream => kind.User?
    case AgentStream => kind.Agent?
    case ThoughtStream => kind.Thought?
  }

  function TextLength(kind: EntryKind): nat { if HasText(kind) then |kind.text| else 0 }

  /** A new entry after every other, ending the streaming one. */
  function Made(p: State, kind: EntryKind): (State, Change) {
    (p.(next := p.next + 1, open := None), Push(Entry(p.next + 1, kind)))
  }

  predicate Streaming(p: State, t: Transcript, stream: Stream, message: Option<Str>) {
    p.open.Some? && p.open.value.stream == stream && p.open.value.message == message
    && LastId(t) == Some(p.open.value.entry)
  }

  /** `text` */
  function TextChunk(p: State, t: Transcript, stream: Stream, message: Option<Str>, text: Str)
    : (State, Option<Change>)
  {
    if text == [] then (p, None)
    else if Streaming(p, t, stream, message) then
      var entry := EntryAt(t, p.open.value.entry);
      var clipped := Clip(if entry.None? then 0 else TextLength(entry.value.kind), text);
      (p, if clipped.None? then None else Some(Append(p.open.value.entry, clipped.value)))
    else
      var (q, change) := Made(p, StreamKind(stream, Bounded(text)));
      (q.(open := Some(Open(q.next, message, stream))), Some(change))
  }

  /** The call's entry, while the transcript has it. */
  function Shown(p: State, t: Transcript, call: Str): Option<Entry> {
    if call in p.tools then EntryAt(t, p.tools[call]) else None
  }

  /** `tool` */
  function ToolChange(p: State, t: Transcript, call: Str, edit: Edit): (State, Change) {
    var known := Shown(p, t, call);
    if known.Some? && known.value.kind.ToolCall? then
      (p, Replace(Entry(known.value.id, ToolCall(Edited(known.value.kind.tool, edit)))))
    else
      var (q, change) := Made(p, ToolCall(Edited(NewTool(call), edit)));
      (q.(tools := q.tools[call := q.next]), change)
  }

  function ForgetBefore(p: State, before: EntryId): State {
    p.(tools := map call | call in p.tools && p.tools[call] >= before :: p.tools[call])
  }

  function Renamed(tools: map<Str, EntryId>, old_: EntryId, id: EntryId): map<Str, EntryId> {
    map call | call in tools :: if tools[call] == old_ then id else tools[call]
  }

  /** `renumber` */
  function Renumber(p: State, old_: EntryId): (State, EntryId) {
    var id := p.next + 1;
    (p.(next := id,
        open := if p.open.Some? && p.open.value.entry == old_ then Some(p.open.value.(entry := id)) else p.open,
        tools := Renamed(p.tools, old_, id)),
     id)
  }

  // ----- sub-agents

  /** The counts of the sub-agents the transcript still lists. */
  function StillListed(steps: map<Str, nat>, t: Transcript): map<Str, nat> {
    map call | call in steps && ActivityOf(t, call).Some? :: steps[call]
  }

  /** The hidden steps of the sub-agents that still run. */
  function StillRunning(skipped: map<Str, Str>, t: Transcript): map<Str, Str> {
    map call | call in skipped && RunningIn(t, skipped[call]) :: skipped[call]
  }

  /** `admit` */
  function Admit(p: State, t: Transcript, parent: Str): (State, bool) {
    var steps := if |p.steps| > MAX_ACTIVITIES_TRACKED then StillListed(p.steps, t) else p.steps;
    var count := (if parent in steps then steps[parent] else 0) + 1;
    (p.(steps := steps[parent := count]), count <= MAX_STEPS)
  }

  predicate RunningIn(t: Transcript, call: Str) {
    ActivityOf(t, call).Some? && ActivityOf(t, call).value.IsRunning()
  }

  /** `skip` */
  function Skip(p: State, t: Transcript, call: Str, parent: Str): State {
    var skipped := if |p.skipped| >= MAX_SKIPPED then StillRunning(p.skipped, t) else p.skipped;
    p.(skipped := if |skipped| < MAX_SKIPPED then skipped[call := parent] else skipped)
  }

  /** `activity::record` */
  function RecordChange(t: Transcript, call: Str, title: Str, report: Report, now: nat): (r: Option<Change>)
    ensures r.Some? ==> r.value.SetActivity? && r.value.activity.callId == call
  {
    var known := ActivityOf(t, call);
    if |call| > MAX_ACTIVITY_TEXT then None
    else if known.Some? && !known.value.IsRunning() then None
    else if known.None? && report.state != Running then None
    else if known.None? && |t.activities| >= MAX_ACTIVITIES && FirstEnded(t.activities).None? then None
    else
      var activity := Activity(
        call,
        if report.detail.Some? then Some(ActivityClip(report.detail.value))
        else if known.Some? then known.value.detail else None,
        if report.state == Running then None else Some(now),
        report.kind,
        if report.name.Some? then ActivityClip(report.name.value)
        else if known.Some? then known.value.labelText else ActivityClip(title),
        if known.Some? then known.value.startedMs else now,
        report.state);
      if Some(activity) == known then None else Some(SetActivity(activity))
  }

  /** `activity::step` */
  function StepChange(t: Transcript, parent: Str, title: Str): (r: Option<Change>)
    ensures r.Some? ==> r.value.SetActivity? && r.value.activity.callId == parent && RunningIn(t, parent)
  {
    var known := ActivityOf(t, parent);
    if !RunningIn(t, parent) || known.value.detail == Some(ActivityClip(title)) then None
    else Some(SetActivity(known.value.(detail := Some(ActivityClip(title)))))
  }

  function Listed<T>(value: Option<T>): seq<T> { if value.None? then [] else [value.value] }

  predicate Ended(status: ToolStatus) { status == Completed || status == Failed }

  /** Whether the call gets a card, and the projector after asking. */
  function Admitted(p: State, t: Transcript, call: Str, tag: Tag): (State, bool) {
    if call in p.skipped then (p, false)
    else if call in p.tools || tag.parent.None? then (p, true)
    else Admit(p, t, tag.parent.value)
  }

  /** What is left of a call past the cap: only its title is of use. */
  function PastCap(p: State, t: Transcript, call: Str, tag: Tag, status: ToolStatus): State {
    if Ended(status) then p.(skipped := p.skipped - {call})
    else if call !in p.tools && tag.parent.Some? then Skip(p, t, call, tag.parent.value)
    else p
  }

  function ActivityChanges(t: Transcript, call: Str, tag: Tag, title: Str, now: nat): seq<Change> {
    Listed(if tag.activity.None? then None else RecordChange(t, call, title, tag.activity.value, now))
    + Listed(if tag.parent.None? then None else StepChange(t, tag.parent.value, title))
  }

  function ToolOf(change: Change): Option<Tool> {
    if (change.Push? || change.Replace?) && change.entry.kind.ToolCall? then Some(change.entry.kind.tool) else None
  }

  /** `tagged` */
  function Tagged(p: State, t: Transcript, call: Str, tag: Tag, now: nat, patch: Patch): (State, seq<Change>) {
    var (q, admitted) := Admitted(p, t, call, tag);
    if admitted then
      var (r, change) := ToolChange(q, t, call, Tagging(patch, tag, now));
      var tool := ToolOf(change);
      (r, [change] + if tool.None? then [] else ActivityChanges(t, call, tag, tool.value.title, now))
    else
      var tool := Patched(NewTool(call), patch);
      (PastCap(q, t, call, tag, tool.status), ActivityChanges(t, call, tag, tool.title, now))
  }

  // ----- updates

  function TodoPlan(p: State, plan: Option<seq<PlanEntry>>): seq<Change> {
    if p.planned || plan.None? then [] else [SetPlan(plan.value)]
  }

  /** What the agent, the user or the session asks of the projector. `todo`, `stays` and `plan` are
      what the to-do reader says of the call's input. */
  datatype Op =
    | Chunk(stream: Stream, message: Option<Str>, text: Str)
    | Shot(author: Author, image: Image)
    | Say(level: NoticeLevel, text: Str)
    | EndTurn(summary: TurnSummary)
    | Prompt(text: Str, files: nat)
    | Close
    | Call(call: Str, tag: Tag, patch: Patch, now: nat, todo: bool, plan: Option<seq<PlanEntry>>)
    | CallUpdate(call: Str, tag: Tag, patch: Patch, now: nat, stays: bool, plan: Option<seq<PlanEntry>>)
    | AskAbout(call: Str, patch: Patch)
    | NewPlan(entries: seq<PlanEntry>)
    | NewMode(mode: Str)
    | Trim(before: EntryId)

  function OnCall(p: State, t: Transcript, op: Op): (State, seq<Change>)
    requires op.Call?
  {
    if op.tag == UNTAGGED && |p.todos| < MAX_SKIPPED && op.todo
    then (p.(todos := p.todos + {op.call}), TodoPlan(p, op.plan))
    else Tagged(p, t, op.call, op.tag, op.now, op.patch)
  }

  function OnCallUpdate(p: State, t: Transcript, op: Op): (State, seq<Change>)
    requires op.CallUpdate?
  {
    var stays := op.tag == UNTAGGED && op.stays;
    var ends := op.patch.status.Some? && Ended(op.patch.status.value);
    var q := if op.call in p.todos && (!stays || ends) then p.(todos := p.todos - {op.call}) else p;
    if op.call in p.todos && stays then (q, TodoPlan(q, op.plan))
    else if Shown(q, t, op.call).None? && op.tag.activity.Some? && ActivityOf(t, op.call).Some? then
      (q, Listed(RecordChange(t, op.call, ActivityOf(t, op.call).value.labelText, op.tag.activity.value, op.now)))
    else Tagged(q, t, op.call, op.tag, op.now, op.patch)
  }

  function One(made: (State, Change)): (State, seq<Change>) { (made.0, [made.1]) }

  function Do(p: State, t: Transcript, op: Op): (State, seq<Change>) {
    match op
    case Chunk(stream, message, text) =>
      var (q, change) := TextChunk(p, t, stream, message, text);
      (q, Listed(change))
    case Shot(author, image) => One(Made(p, Picture(author, image)))
    case Say(level, text) => One(Made(p, Notice([], None, level, Bounded(text))))
    case EndTurn(summary) => One(Made(p, Turned(summary)))
    case Prompt(text, files) => One(Made(p, User(Bounded(text), files)))
    case Close => (p.(open := None), [])
    case Call(_, _, _, _, _, _) => OnCall(p, t, op)
    case CallUpdate(_, _, _, _, _, _) => OnCallUpdate(p, t, op)
    case AskAbout(call, patch) => One(ToolChange(p, t, call, Plain(patch)))
    case NewPlan(entries) => (p.(planned := true), [SetPlan(entries)])
    case NewMode(mode) => (p, if t.details.modes.None? then [] else [CurrentMode(mode)])
    case Trim(before) => (ForgetBefore(p, before), [Truncate(before)])
  }

  // ----- what every run keeps

  /** The call's card: a live tool entry of the same call. */
  ghost predicate Card(entries: seq<Entry>, call: Str, id: EntryId) {
    exists e :: e in entries && e.id == id && e.kind.ToolCall? && e.kind.tool.callId == call
  }

  /** Which stream and message each streamed entry began with. */
  type Births = map<EntryId, (Stream, Option<Str>)>

  ghost predicate CardsLive(tools: map<Str, EntryId>, entries: seq<Entry>) {
    forall call :: call in tools ==> Card(entries, call, tools[call])
  }

  ghost predicate StreamsKept(born: Births, entries: seq<Entry>) {
    forall e :: e in entries && e.id in born ==> OfStream(e.kind, born[e.id].0)
  }

  ghost predicate IdsBelow(entries: seq<Entry>, next: nat) {
    forall e :: e in entries ==> e.id <= next
  }

  ghost predicate OpenBorn(open: Option<Open>, born: Births) {
    open.Some? ==> open.value.entry in born && born[open.value.entry] == (open.value.stream, open.value.message)
  }

  /** Ids never run backwards, the streaming entry is one of its stream and message, and every
      tracked call has its card. */
  ghost predicate Fit(p: State, t: Transcript, born: Births) {
    && WellFormed(t)
    && IdsBelow(t.entries, p.next)
    && (forall id :: id in born ==> id <= p.next)
    && OpenBorn(p.open, born)
    && StreamsKept(born, t.entries)
    && CardsLive(p.tools, t.entries)
  }

  lemma EntryAtIs(t: Transcript, e: Entry)
    requires Ordered(t.entries) && e in t.entries
    ensures EntryAt(t, e.id) == Some(e)
  {
    var i :| 0 <= i < |t.entries| && t.entries[i] == e;
    PositionUnique(t.entries, i);
  }

  // How the parts of `Fit` move with the entries.

  lemma PushMoves(tools: map<Str, EntryId>, born: Births, entries: seq<Entry>, entry: Entry)
    requires CardsLive(tools, entries) && StreamsKept(born, entries)
    requires entry.id in born ==> OfStream(entry.kind, born[entry.id].0)
    ensures CardsLive(tools, entries + [entry]) && StreamsKept(born, entries + [entry])
  {
    forall call | call in tools ensures Card(entries + [entry], call, tools[call]) {
      var e :| e in entries && e.id == tools[call] && e.kind.ToolCall? && e.kind.tool.callId == call;
      assert e in entries + [entry];
    }
  }

  /** Changing an entry in place to one of the same kind and call moves nothing. */
  lemma UpdateMoves(tools: map<Str, EntryId>, born: Births, entries: seq<Entry>, i: nat, entry: Entry)
    requires CardsLive(tools, entries) && StreamsKept(born, entries)
    requires i < |entries| && entries[i].id == entry.id
    requires entries[i].kind.ToolCall? <==> entry.kind.ToolCall?
    requires entry.kind.ToolCall? ==> entry.kind.tool.callId == entries[i].kind.tool.callId
    requires entry.id in born ==> OfStream(entry.kind, born[entry.id].0)
    ensures CardsLive(tools, entries[i := entry]) && StreamsKept(born, entries[i := entry])
  {
    var after := entries[i := entry];
    assert after[i] == entry;
    forall call | call in tools ensures Card(after, call, tools[call]) {
      var e :| e in entries && e.id == tools[call] && e.kind.ToolCall? && e.kind.tool.callId == call;
      var j :| 0 <= j < |entries| && entries[j] == e;
      assert after[j] in after;
    }
    forall e | e in after && e.id in born ensures OfStream(e.kind, born[e.id].0) {
      assert e == entry || e in entries;
    }
  }

  lemma SuffixMoves(tools: map<Str, EntryId>, born: Births, entries: seq<Entry>, before: EntryId, n: nat)
    requires CardsLive(tools, entries) && StreamsKept(born, entries)
    requires n <= |entries| && forall i :: 0 <= i < n ==> entries[i].id < before
    ensures CardsLive(map call | call in tools && tools[call] >= before :: tools[call], entries[n..])
    ensures StreamsKept(born, entries[n..])
  {
    var kept := map call | call in tools && tools[call] >= before :: tools[call];
    forall call | call in kept ensures Card(entries[n..], call, kept[call]) {
      assert Card(entries, call, tools[call]);
      var j :| 0 <= j < |entries| && entries[j].id == tools[call] && entries[j].kind.ToolCall?
               && entries[j].kind.tool.callId == call;
      assert entries[n..][j - n] == entries[j];
    }
    forall e | e in entries[n..] ensures e in entries {}
  }

  lemma LastIsBelow(t: Transcript, next: nat)
    requires IdsBelow(t.entries, next) && t.entries != []
    ensures t.entries[|t.entries| - 1].id <= next
  {
    assert t.entries[|t.entries| - 1] in t.entries;
  }

  ghost predicate BornNow(born: Births, later: Births, id: EntryId, kind: EntryKind) {
    id in later && OfStream(kind, later[id].0) && later - {id} == born - {id}
  }

  /** A new entry after every other always fits, and `Fit` moves with it. */
  lemma PushFits(p: State, q: State, t: Transcript, born: Births, later: Births, kind: EntryKind)
    requires Fit(p, t, born) && ValidKind(kind) && q.next == p.next + 1
    requires later == born || BornNow(born, later, q.next, kind)
    requires OpenBorn(q.open, later)
    requires q.tools == p.tools || (kind.ToolCall? && q.tools == p.tools[kind.tool.callId := q.next])
    ensures var r := Apply(t, Push(Entry(q.next, kind)));
      r.Fits? && r.t.entries == t.entries + [Entry(q.next, kind)] && Fit(q, r.t, later)
  {
    hide Apply;
    hide Card;
    var entry := Entry(q.next, kind);
    if t.entries != [] { LastIsBelow(t, p.next); }
    PushAfter(t, entry);
    var r := Apply(t, Push(entry));
    ApplyKeepsWellFormed(t, Push(entry));
    StreamsKeptLater(born, later, t.entries, p.next);
    PushMoves(p.tools, later, t.entries, entry);
    if q.tools != p.tools { NewCard(p.tools, t.entries, entry); }
    forall id | id in later ensures id <= q.next {
      if later != born && id != q.next { assert id in later - {q.next}; }
    }
  }

  lemma StreamsKeptLater(born: Births, later: Births, entries: seq<Entry>, next: nat)
    requires StreamsKept(born, entries) && IdsBelow(entries, next)
    requires later == born || later - {next + 1} == born - {next + 1}
    ensures StreamsKept(later, entries)
  {
    if later != born {
      forall e | e in entries && e.id in later ensures OfStream(e.kind, later[e.id].0) {
        assert e.id in later - {next + 1};
      }
    }
  }

  lemma NewCard(tools: map<Str, EntryId>, entries: seq<Entry>, entry: Entry)
    requires entry.kind.ToolCall? && CardsLive(tools, entries + [entry])
    ensures CardsLive(tools[entry.kind.tool.callId := entry.id], entries + [entry])
  {
    assert entry in entries + [entry];
  }

  /** A streamed chunk appends only to the last entry, of the same stream and message. */
  lemma ChunkFits(p: State, t: Transcript, born: Births, stream: Stream, message: Option<Str>, text: Str)
    returns (later: Births)
    requires Fit(p, t, born)
    ensures var (q, change) := TextChunk(p, t, stream, message, text);
      && Fold(t, Listed(change)).Fits?
      && Fit(q, Fold(t, Listed(change)).t, later)
      && (change.Some? && change.value.Append? ==>
            LastId(t) == Some(change.value.id) && change.value.id in born && born[change.value.id] == (stream, message))
  {
    hide Apply;
    hide Clip;
    hide WellFormed;
    hide Card;
    var (q, change) := TextChunk(p, t, stream, message, text);
    later := born;
    FoldOne(t, change);
    if change.Some? && change.value.Append? {
      AppendFits(p, t, born, change.value.text);
    } else if change.Some? {
      later := born[q.next := (stream, message)];
      var kind := StreamKind(stream, Bounded(text));
      assert later - {q.next} == born - {q.next};
      PushFits(p, q, t, born, later, kind);
    }
  }

  lemma FoldOne(t: Transcript, change: Option<Change>)
    ensures Fold(t, Listed(change)) == if change.None? then Fits(t) else Apply(t, change.value)
  {
    if change.Some? {
      FoldSnoc(t, [], change.value);
      assert [] + [change.value] == [change.value];
    }
  }

  lemma AppendFits(p: State, t: Transcript, born: Births, text: Str)
    requires Fit(p, t, born) && p.open.Some? && LastId(t) == Some(p.open.value.entry)
    ensures Apply(t, Append(p.open.value.entry, text)).Fits?
    ensures Fit(p, Apply(t, Append(p.open.value.entry, text)).t, born)
  {
    hide Card;
    var n := |t.entries| - 1;
    var e := t.entries[n];
    assert e in t.entries;
    PositionUnique(t.entries, n);
    var entry := Entry(e.id, Appended(e.kind, text));
    AppendAt(t, n, text);
    ApplyKeepsWellFormed(t, Append(e.id, text));
    UpdateMoves(p.tools, born, t.entries, n, entry);
    assert IdsBelow(t.entries[n := entry], p.next);
  }

  lemma AppendAt(t: Transcript, i: nat, text: Str)
    requires Ordered(t.entries) && i < |t.entries| && HasText(t.entries[i].kind)
    ensures Apply(t, Append(t.entries[i].id, text))
         == Fits(t.(entries := t.entries[i := Entry(t.entries[i].id, Appended(t.entries[i].kind, text))]))
  {
    PositionUnique(t.entries, i);
  }

  /** A tracked call's entry is its card. */
  lemma ShownIsCard(p: State, t: Transcript, call: Str)
    requires Ordered(t.entries) && CardsLive(p.tools, t.entries)
    ensures Shown(p, t, call).Some? <==> call in p.tools
    ensures call in p.tools ==> var e := Shown(p, t, call).value;
      e in t.entries && e.id == p.tools[call] && e.kind.ToolCall? && e.kind.tool.callId == call
  {
    if call in p.tools {
      var e :| e in t.entries && e.id == p.tools[call] && e.kind.ToolCall? && e.kind.tool.callId == call;
      EntryAtIs(t, e);
    }
  }

  /** A tool change replaces the call's own card, or pushes the call's first one. */
  lemma ToolFits(p: State, t: Transcript, born: Births, call: Str, edit: Edit)
    requires Fit(p, t, born)
    ensures var (q, change) := ToolChange(p, t, call, edit);
      && Apply(t, change).Fits? && Fit(q, Apply(t, change).t, born)
      && Apply(t, change).t.activities == t.activities
      && ToolOf(change).Some? && ToolOf(change).value.callId == call
      && (change.Replace? <==> call in p.tools) && (change.Push? <==> call !in p.tools)
      && (change.Replace? ==> Card(t.entries, call, change.entry.id))
      && (change.Push? ==> change.entry.id == p.next + 1)
  {
    hide Apply;
    hide WellFormed;
    hide CardsLive;
    hide StreamsKept;
    hide Edited;
    var (q, change) := ToolChange(p, t, call, edit);
    assert Ordered(t.entries) by { WellFormedOrdered(t); }
    ShownIsCard(p, t, call);
    if call in p.tools {
      var e := Shown(p, t, call).value;
      var i :| 0 <= i < |t.entries| && t.entries[i] == e;
      ToolNotBorn(born, t.entries, e);
      ReplaceAt(t, i, change.entry);
      ApplyKeepsWellFormed(t, change);
      UpdateMoves(p.tools, born, t.entries, i, change.entry);
      assert IdsBelow(t.entries[i := change.entry], p.next);
    } else {
      PushFits(p, q, t, born, born, change.entry.kind);
      PushKeepsActivities(t, change.entry);
    }
  }

  lemma ToolNotBorn(born: Births, entries: seq<Entry>, e: Entry)
    requires StreamsKept(born, entries) && e in entries && e.kind.ToolCall?
    ensures e.id !in born
  {}

  lemma WellFormedOrdered(t: Transcript)
    requires WellFormed(t)
    ensures Ordered(t.entries)
  {}

  lemma PushKeepsActivities(t: Transcript, entry: Entry)
    requires Apply(t, Push(entry)).Fits?
    ensures Apply(t, Push(entry)).t.activities == t.activities
  {}

  lemma ActivityOfIs(t: Transcript, call: Str)
    ensures ActivityOf(t, call).Some? ==>
      ActivityOf(t, call).value in t.activities && ActivityOf(t, call).value.callId == call
    ensures ActivityOf(t, call).None? ==> forall x :: x in t.activities ==> x.callId != call
  {}

  /** What `record` reports is always room enough and short enough to record. */
  lemma RecordFits(t: Transcript, call: Str, title: Str, report: Report, now: nat)
    requires ActivitiesOk(t.activities) && RecordChange(t, call, title, report, now).Some?
    ensures var x := RecordChange(t, call, title, report, now).value.activity;
      && x.callId == call && x.Fits() && Record(t, x).Fits?
      && (forall y :: y in t.activities && y.IsRunning() ==> ActivityOf(Record(t, x).t, y.callId).Some?)
  {
    var x := RecordChange(t, call, title, report, now).value.activity;
    ActivityOfIs(t, call);
    assert x.Fits();
    var then_ := Record(t, x).t.activities;
    forall y | y in t.activities && y.IsRunning() ensures ActivityOf(Record(t, x).t, y.callId).Some? {
      RunningStays(t, x, y);
    }
  }

  /** Recording an activity evicts none that runs. */
  lemma RunningStays(t: Transcript, x: Activity, y: Activity)
    requires Record(t, x).Fits? && y in t.activities && y.IsRunning()
    ensures ActivityOf(Record(t, x).t, y.callId).Some?
  {
    var then_ := Record(t, x).t.activities;
    var i :| 0 <= i < |t.activities| && t.activities[i] == y;
    var known := ActivityIndex(t.activities, x.callId);
    if known.Some? {
      assert then_[i].callId == y.callId;
    } else if |t.activities| < MAX_ACTIVITIES {
      assert then_[i] == y;
    } else {
      var gone := FirstEnded(t.activities).value;
      assert then_[if i < gone then i else i - 1] == y;
    }
  }

  lemma StepFits(t: Transcript, now_: Transcript, parent: Str, title: Str)
    requires ActivitiesOk(t.activities) && StepChange(t, parent, title).Some?
    requires ActivityOf(now_, parent).Some?
    ensures Record(now_, StepChange(t, parent, title).value.activity).Fits?
  {
    ActivityOfIs(t, parent);
  }

  /** The activity changes of one call fit, one after the other. */
  lemma ActivityChangesFit(t0: Transcript, t: Transcript, call: Str, tag: Tag, title: Str, now: nat)
    requires WellFormed(t) && t.activities == t0.activities
    ensures var r := Fold(t, ActivityChanges(t0, call, tag, title, now));
      r.Fits? && r.t == t.(activities := r.t.activities) && WellFormed(r.t)
  {
    hide Apply;
    hide Record;
    hide RecordChange;
    hide StepChange;
    hide Listed;
    var a := if tag.activity.None? then None else RecordChange(t0, call, title, tag.activity.value, now);
    var b := if tag.parent.None? then None else StepChange(t0, tag.parent.value, title);
    var mid := t;
    FoldOne(t, a);
    if a.Some? {
      RecordFits(t0, call, title, tag.activity.value, now);
      RecordSame(t0, t, a.value.activity);
      ApplyActivity(t, a.value.activity);
      mid := Record(t, a.value.activity).t;
    }
    assert Fold(t, Listed(a)) == Fits(mid) && mid == t.(activities := mid.activities);
    FoldOne(mid, b);
    FoldConcat(t, Listed(a), Listed(b));
    if b.Some? {
      ParentStays(t0, mid, a, tag.parent.value);
      StepFits(t0, mid, tag.parent.value, title);
      ApplyActivity(mid, b.value.activity);
      RecordSame(mid, mid, b.value.activity);
    }
    FoldKeepsWellFormed(t, Listed(a) + Listed(b));
  }

  lemma ParentStays(t0: Transcript, mid: Transcript, a: Option<Change>, parent: Str)
    requires RunningIn(t0, parent)
    requires a.None? ==> mid.activities == t0.activities
    requires a.Some? ==>
      a.value.SetActivity? && Record(t0, a.value.activity).Fits?
      && mid.activities == Record(t0, a.value.activity).t.activities
    ensures ActivityOf(mid, parent).Some?
  {
    hide Record;
    ActivityOfIs(t0, parent);
    if a.Some? {
      RunningStays(t0, a.value.activity, ActivityOf(t0, parent).value);
      SameActivityOf(Record(t0, a.value.activity).t, mid, parent);
    } else {
      SameActivityOf(t0, mid, parent);
    }
  }

  lemma RecordSame(t0: Transcript, t: Transcript, x: Activity)
    requires t0.activities == t.activities
    ensures Record(t0, x).Fits? <==> Record(t, x).Fits?
    ensures Record(t, x).Fits? ==> Record(t, x).t == t.(activities := Record(t0, x).t.activities)
  {}

  lemma SameActivityOf(t0: Transcript, t: Transcript, call: Str)
    requires t0.activities == t.activities
    ensures ActivityOf(t0, call) == ActivityOf(t, call)
  {}

  lemma TrimFits(p: State, t: Transcript, born: Births, before: EntryId)
    requires Fit(p, t, born)
    ensures Apply(t, Truncate(before)).Fits?
    ensures Fit(ForgetBefore(p, before), Apply(t, Truncate(before)).t, born)
  {
    hide Card;
    var n := LeadingBefore(t.entries, before);
    ApplyTruncate(t, before);
    ApplyKeepsWellFormed(t, Truncate(before));
    SuffixMoves(p.tools, born, t.entries, before, n);
    assert t.entries[0..] == t.entries;
    forall e | e in t.entries[n..] ensures e in t.entries {}
  }

  /** `Fit` looks at no counter and no list of hidden calls. */
  lemma FitIgnores(p: State, q: State, t: Transcript, u: Transcript, born: Births)
    requires Fit(p, t, born) && q.next == p.next && q.open == p.open && q.tools == p.tools
    requires u.entries == t.entries && WellFormed(u)
    ensures Fit(q, u, born)
  {}

  lemma AdmittedOnlyCounts(p: State, t: Transcript, call: Str, tag: Tag)
    ensures var q := Admitted(p, t, call, tag).0; q == p.(steps := q.steps)
  {}

  lemma PastCapOnlySkips(p: State, t: Transcript, call: Str, tag: Tag, status: ToolStatus)
    ensures var q := PastCap(p, t, call, tag, status); q == p.(skipped := q.skipped)
  {}

  lemma FoldCons(t: Transcript, first: Change, rest: seq<Change>)
    requires Apply(t, first).Fits?
    ensures Fold(t, [first] + rest) == Fold(Apply(t, first).t, rest)
  {
    FoldConcat(t, [first], rest);
    FoldOne(t, Some(first));
  }

  /** Every change of a tagged call fits, and only its own card is touched. */
  lemma TaggedFits(p: State, t: Transcript, born: Births, call: Str, tag: Tag, now: nat, patch: Patch)
    requires Fit(p, t, born)
    ensures var (q, changes) := Tagged(p, t, call, tag, now, patch);
      Fold(t, changes).Fits? && Fit(q, Fold(t, changes).t, born)
  {
    hide Apply;
    hide WellFormed;
    hide Fit;
    hide ToolChange;
    hide ActivityChanges;
    hide PastCap;
    hide Admitted;
    var (q, admitted) := Admitted(p, t, call, tag);
    AdmittedOnlyCounts(p, t, call, tag);
    FitWellFormed(p, t, born);
    FitIgnores(p, q, t, t, born);
    if admitted {
      var edit := Tagging(patch, tag, now);
      ToolFits(q, t, born, call, edit);
      var (r, change) := ToolChange(q, t, call, edit);
      var u := Apply(t, change).t;
      var rest := ActivityChanges(t, call, tag, ToolOf(change).value.title, now);
      FitWellFormed(r, u, born);
      ActivityChangesFit(t, u, call, tag, ToolOf(change).value.title, now);
      FoldCons(t, change, rest);
      FitIgnores(r, r, u, Fold(u, rest).t, born);
    } else {
      var tool := Patched(NewTool(call), patch);
      ActivityChangesFit(t, t, call, tag, tool.title, now);
      PastCapOnlySkips(q, t, call, tag, tool.status);
      var changes := ActivityChanges(t, call, tag, tool.title, now);
      FitIgnores(q, PastCap(q, t, call, tag, tool.status), t, Fold(t, changes).t, born);
    }
  }

  lemma FitWellFormed(p: State, t: Transcript, born: Births)
    requires Fit(p, t, born)
    ensures WellFormed(t)
  {}

  /** A change that leaves the entries alone. */
  lemma DetailFits(p: State, q: State, t: Transcript, born: Births, changes: seq<Change>)
    requires Fit(p, t, born) && q.next == p.next && q.open == p.open && q.tools == p.tools
    requires changes == []
      || (|changes| == 1 && Apply(t, changes[0]).Fits? && Apply(t, changes[0]).t.entries == t.entries)
    ensures Fold(t, changes).Fits? && Fit(q, Fold(t, changes).t, born)
  {
    hide Apply;
    if changes == [] {
      FitIgnores(p, q, t, t, born);
    } else {
      assert changes == [changes[0]];
      FoldOne(t, Some(changes[0]));
      ApplyKeepsWellFormed(t, changes[0]);
      FitIgnores(p, q, t, Apply(t, changes[0]).t, born);
    }
  }

  lemma PlanFits(t: Transcript, plan: seq<PlanEntry>)
    ensures Apply(t, SetPlan(plan)).Fits? && Apply(t, SetPlan(plan)).t.entries == t.entries
  {}

  lemma ModeFits(t: Transcript, mode: Str)
    requires t.details.modes.Some?
    ensures Apply(t, CurrentMode(mode)).Fits? && Apply(t, CurrentMode(mode)).t.entries == t.entries
  {}

  lemma UpdateFits(p: State, t: Transcript, born: Births, op: Op)
    requires Fit(p, t, born) && (op.Call? || op.CallUpdate?)
    ensures var (q, changes) := Do(p, t, op);
      Fold(t, changes).Fits? && Fit(q, Fold(t, changes).t, born)
  {
    hide Apply;
    hide Fit;
    hide Tagged;
    hide RecordChange;
    FitWellFormed(p, t, born);
    if op.Call? {
      if op.tag == UNTAGGED && |p.todos| < MAX_SKIPPED && op.todo {
        if op.plan.Some? { PlanFits(t, op.plan.value); }
        DetailFits(p, p.(todos := p.todos + {op.call}), t, born, TodoPlan(p, op.plan));
      } else {
        TaggedFits(p, t, born, op.call, op.tag, op.now, op.patch);
      }
    } else {
      var stays := op.tag == UNTAGGED && op.stays;
      var ends := op.patch.status.Some? && Ended(op.patch.status.value);
      var r := if op.call in p.todos && (!stays || ends) then p.(todos := p.todos - {op.call}) else p;
      FitIgnores(p, r, t, t, born);
      if op.call in p.todos && stays {
        if op.plan.Some? { PlanFits(t, op.plan.value); }
        DetailFits(p, r, t, born, TodoPlan(r, op.plan));
      } else if Shown(r, t, op.call).None? && op.tag.activity.Some? && ActivityOf(t, op.call).Some? {
        var change := RecordChange(t, op.call, ActivityOf(t, op.call).value.labelText, op.tag.activity.value, op.now);
        if change.Some? {
          RecordFits(t, op.call, ActivityOf(t, op.call).value.labelText, op.tag.activity.value, op.now);
          ApplyActivity(t, change.value.activity);
          RecordSame(t, t, change.value.activity);
        }
        DetailFits(p, r, t, born, Listed(change));
      } else {
        TaggedFits(r, t, born, op.call, op.tag, op.now, op.patch);
      }
    }
  }

  /** Whatever it is asked, the projector's changes fit the transcript it read. */
  lemma DoFits(p: State, t: Transcript, born: Births, op: Op) returns (later: Births)
    requires Fit(p, t, born)
    ensures var (q, changes) := Do(p, t, op);
      Fold(t, changes).Fits? && Fit(q, Fold(t, changes).t, later)
    ensures op.Chunk? || later == born
  {
    hide Apply;
    hide Fit;
    hide ToolChange;
    hide TextChunk;
    later := born;
    match op
    case Chunk(stream, message, text) => later := ChunkFits(p, t, born, stream, message, text);
    case Close => CloseFits(p, t, born);
    case Call(_, _, _, _, _, _) => UpdateFits(p, t, born, op);
    case CallUpdate(_, _, _, _, _, _) => UpdateFits(p, t, born, op);
    case AskAbout(call, patch) =>
      ToolFits(p, t, born, call, Plain(patch));
      FoldOne(t, Some(ToolChange(p, t, call, Plain(patch)).1));
    case NewPlan(entries) =>
      PlanFits(t, entries);
      DetailFits(p, p.(planned := true), t, born, [SetPlan(entries)]);
    case NewMode(mode) =>
      if t.details.modes.Some? { ModeFits(t, mode); }
      DetailFits(p, p, t, born, if t.details.modes.None? then [] else [CurrentMode(mode)]);
    case Trim(before) =>
      TrimFits(p, t, born, before);
      FoldOne(t, Some(Truncate(before)));
    case Shot(author, image) => MadeFits(p, t, born, Picture(author, image));
    case Say(level, text) => MadeFits(p, t, born, Notice([], None, level, Bounded(text)));
    case EndTurn(summary) => MadeFits(p, t, born, Turned(summary));
    case Prompt(text, files) => MadeFits(p, t, born, User(Bounded(text), files));
  }

  lemma CloseFits(p: State, t: Transcript, born: Births)
    requires Fit(p, t, born)
    ensures Fit(p.(open := None), t, born) && Fold(t, []) == Fits(t)
  {}

  lemma MadeFits(p: State, t: Transcript, born: Births, kind: EntryKind)
    requires Fit(p, t, born) && ValidKind(kind)
    ensures var (q, changes) := One(Made(p, kind));
      Fold(t, changes).Fits? && Fit(q, Fold(t, changes).t, born)
  {
    hide Apply;
    var (q, change) := Made(p, kind);
    PushFits(p, q, t, born, born, kind);
    FoldOne(t, Some(change));
  }

  // ----- what each change aims at

  /** An append goes to the last entry, begun by this stream and message; a replacement goes to the
      live card of this very call; a push takes the next id. */
  ghost predicate Aimed(p: State, t: Transcript, born: Births, op: Op, change: Change) {
    && (change.Append? ==>
          op.Chunk? && LastId(t) == Some(change.id)
          && change.id in born && born[change.id] == (op.stream, op.message))
    && (change.Replace? ==>
          (op.Call? || op.CallUpdate? || op.AskAbout?) && op.call in p.tools
          && change.entry.id == p.tools[op.call] && Card(t.entries, op.call, change.entry.id)
          && ToolOf(change).Some? && ToolOf(change).value.callId == op.call)
    && (change.Push? ==> change.entry.id == p.next + 1)
  }

  lemma ToolAimed(p: State, t: Transcript, born: Births, op: Op, edit: Edit)
    requires Fit(p, t, born) && (op.Call? || op.CallUpdate? || op.AskAbout?)
    ensures Aimed(p, t, born, op, ToolChange(p, t, op.call, edit).1)
  {
    hide WellFormed;
    ToolFits(p, t, born, op.call, edit);
    WellFormedOrdered(t);
    ShownIsCard(p, t, op.call);
  }

  lemma ActivityAimed(p: State, t: Transcript, born: Births, op: Op, call: Str, tag: Tag, title: Str, now: nat)
    ensures forall c :: c in ActivityChanges(t, call, tag, title, now) ==> Aimed(p, t, born, op, c)
  {
    hide RecordChange;
    hide StepChange;
    hide Card;
  }

  lemma AimedIgnores(p: State, q: State, t: Transcript, born: Births, op: Op, change: Change)
    requires Aimed(q, t, born, op, change) && q.next == p.next && q.tools == p.tools
    ensures Aimed(p, t, born, op, change)
  {}

  lemma TaggedAimed(p: State, t: Transcript, born: Births, op: Op)
    requires Fit(p, t, born) && (op.Call? || op.CallUpdate?)
    ensures forall c :: c in Tagged(p, t, op.call, op.tag, op.now, op.patch).1 ==> Aimed(p, t, born, op, c)
  {
    hide Fit;
    hide ToolChange;
    hide ActivityChanges;
    hide Aimed;
    hide Admitted;
    hide PastCap;
    var (q, admitted) := Admitted(p, t, op.call, op.tag);
    AdmittedOnlyCounts(p, t, op.call, op.tag);
    FitWellFormed(p, t, born);
    FitIgnores(p, q, t, t, born);
    var edit := Tagging(op.patch, op.tag, op.now);
    ToolAimed(q, t, born, op, edit);
    var change := ToolChange(q, t, op.call, edit).1;
    AimedIgnores(p, q, t, born, op, change);
    if admitted && ToolOf(change).Some? {
      ActivityAimed(p, t, born, op, op.call, op.tag, ToolOf(change).value.title, op.now);
    } else if !admitted {
      ActivityAimed(p, t, born, op, op.call, op.tag, Patched(NewTool(op.call), op.patch).title, op.now);
    }
  }

  lemma TodoAimed(p: State, q: State, t: Transcript, born: Births, op: Op, plan: Option<seq<PlanEntry>>)
    ensures forall c :: c in TodoPlan(q, plan) ==> Aimed(p, t, born, op, c)
  {}

  lemma UpdateAims(p: State, t: Transcript, born: Births, op: Op)
    requires Fit(p, t, born) && (op.Call? || op.CallUpdate?)
    ensures forall c :: c in Do(p, t, op).1 ==> Aimed(p, t, born, op, c)
  {
    hide Fit;
    hide Tagged;
    hide Aimed;
    hide TodoPlan;
    hide RecordChange;
    TaggedAimed(p, t, born, op);
    if op.Call? {
      TodoAimed(p, p, t, born, op, op.plan);
    } else {
      var r := p.(todos := p.todos - {op.call});
      FitWellFormed(p, t, born);
      FitIgnores(p, r, t, t, born);
      TodoAimed(p, p, t, born, op, op.plan);
      TodoAimed(p, r, t, born, op, op.plan);
      TaggedAimed(r, t, born, op);
      forall c | Aimed(r, t, born, op, c) ensures Aimed(p, t, born, op, c) { AimedIgnores(p, r, t, born, op, c); }
      if ActivityOf(t, op.call).Some? && op.tag.activity.Some? {
        RecordAimed(p, t, born, op, op.call, ActivityOf(t, op.call).value.labelText, op.tag.activity.value, op.now);
      }
    }
  }

  lemma RecordAimed(p: State, t: Transcript, born: Births, op: Op, call: Str, title: Str, report: Report, now: nat)
    ensures forall c :: c in Listed(RecordChange(t, call, title, report, now)) ==> Aimed(p, t, born, op, c)
  {}

  /** Whatever is asked, each change goes where it may. */
  lemma DoAims(p: State, t: Transcript, born: Births, op: Op)
    requires Fit(p, t, born)
    ensures forall c :: c in Do(p, t, op).1 ==> Aimed(p, t, born, op, c)
  {
    hide Fit;
    hide Tagged;
    hide Card;
    if op.Chunk? {
      var later := ChunkFits(p, t, born, op.stream, op.message, op.text);
    } else if op.AskAbout? {
      hide ToolChange;
      ToolAimed(p, t, born, op, Plain(op.patch));
    } else if op.Call? || op.CallUpdate? {
      UpdateAims(p, t, born, op);
    }
  }

  // ----- pictures that go in before the entry just made

  /** A picture an agent message linked, and what the transcript dropped to make room for it. */
  datatype Inserted = Inserted(image: Image, cut: Option<EntryId>)

  /** The session adds the pictures an agent message linked before the entry that follows it, each
      with an id of its own (session/pictures.rs, `pictures_before`). */
  function Shots(p: State, pictures: seq<Inserted>): (State, seq<Change>) {
    if pictures == [] then (p, [])
    else
      var (q, changes) := Shots(p, pictures[..|pictures| - 1]);
      var (next, more) := OneShot(q, pictures[|pictures| - 1]);
      (next, changes + more)
  }

  function OneShot(p: State, picture: Inserted): (State, seq<Change>) {
    var (made, change) := Made(p, Picture(ByAgent, picture.image));
    if picture.cut.None? then (made, [change])
    else (ForgetBefore(made, picture.cut.value), [change, Truncate(picture.cut.value)])
  }

  /** The changes one update makes, and the projector after them. */
  function Emitted(p: State, t: Transcript, op: Op, pictures: seq<Inserted>): (State, seq<Change>) {
    var (q, changes) := Do(p, t, op);
    if pictures == [] || changes == [] || !changes[0].Push? then (q, changes)
    else
      var (r, shots) := Shots(q, pictures);
      var (last, id) := Renumber(r, changes[0].entry.id);
      (last, shots + ([Push(changes[0].entry.(id := id))] + changes[1..]))
  }

  /** `b` tracks what `a` does, and perhaps the call of the entry `id` still to be pushed. */
  ghost predicate Beside(a: map<Str, EntryId>, b: map<Str, EntryId>, kind: EntryKind, id: EntryId) {
    && (forall c :: c in a ==> c in b && b[c] == a[c] && a[c] < id)
    && (forall c :: c in b && c !in a ==> kind.ToolCall? && c == kind.tool.callId && b[c] == id)
  }

  lemma OneShotFits(p: State, q: State, t: Transcript, born: Births, picture: Inserted, kind: EntryKind, id: EntryId)
    requires Fit(p, t, born) && q.next == p.next && Beside(p.tools, q.tools, kind, id)
    ensures var (next, changes) := OneShot(p, picture);
      var (beside, same) := OneShot(q, picture);
      && same == changes && beside.next == next.next && beside.open == None && next.open == None
      && Beside(next.tools, beside.tools, kind, id)
      && Fold(t, changes).Fits? && Fold(t, changes).t.activities == t.activities
      && Fit(next, Fold(t, changes).t, born)
  {
    hide Apply;
    hide Fit;
    var (made, change) := Made(p, Picture(ByAgent, picture.image));
    MadeFits(p, t, born, Picture(ByAgent, picture.image));
    var u := Fold(t, [change]).t;
    FoldOne(t, Some(change));
    PushKeepsActivities(t, change.entry);
    if picture.cut.Some? {
      TrimFits(made, u, born, picture.cut.value);
      ApplyTruncate(u, picture.cut.value);
      FoldSnoc(t, [change], Truncate(picture.cut.value));
      assert [change] + [Truncate(picture.cut.value)] == [change, Truncate(picture.cut.value)];
    }
  }

  lemma {:induction false} ShotsFit(p: State, q: State, t: Transcript, born: Births, pictures: seq<Inserted>,
                                    kind: EntryKind, id: EntryId)
    requires Fit(p, t, born) && q.next == p.next && Beside(p.tools, q.tools, kind, id)
    ensures var (next, changes) := Shots(p, pictures);
      var (beside, same) := Shots(q, pictures);
      && same == changes && beside.next == next.next
      && (pictures != [] ==> beside.open == None && next.open == None)
      && Beside(next.tools, beside.tools, kind, id)
      && Fold(t, changes).Fits? && Fold(t, changes).t.activities == t.activities
      && Fit(next, Fold(t, changes).t, born)
  {
    hide Apply;
    hide Fit;
    hide Beside;
    hide OneShot;
    if pictures != [] {
      var n := |pictures| - 1;
      ShotsFit(p, q, t, born, pictures[..n], kind, id);
      var (next, changes) := Shots(p, pictures[..n]);
      var (beside, _) := Shots(q, pictures[..n]);
      var u := Fold(t, changes).t;
      OneShotFits(next, beside, u, born, pictures[n], kind, id);
      FoldConcat(t, changes, OneShot(next, pictures[n]).1);
    }
  }

  /** What follows a push is only what the call says of activities. */
  ghost predicate OnlyActivities(t: Transcript, changes: seq<Change>) {
    changes == [] || exists call, tag, title, now :: changes == ActivityChanges(t, call, tag, title, now)
  }

  ghost predicate NextPushed(p: State, q: State, entry: Entry) {
    && entry.id == p.next + 1 && q.next == entry.id && ValidKind(entry.kind)
    && Beside(p.tools, q.tools, entry.kind, entry.id)
    && (entry.kind.ToolCall? ==> entry.kind.tool.callId in q.tools && entry.kind.tool.callId !in p.tools)
  }

  /** A push comes first, takes the next id and is all the projector remembers of new. */
  ghost predicate PushesNext(p: State, q: State, t: Transcript, changes: seq<Change>) {
    if changes != [] && changes[0].Push?
    then NextPushed(p, q, changes[0].entry) && OnlyActivities(t, changes[1..])
    else q.next == p.next && forall c :: c in changes ==> !c.Push?
  }

  lemma ToolPushes(p: State, t: Transcript, born: Births, call: Str, edit: Edit)
    requires Fit(p, t, born)
    ensures var (q, change) := ToolChange(p, t, call, edit);
      if change.Push? then NextPushed(p, q, change.entry) else q.next == p.next
  {
    hide WellFormed;
    hide Apply;
    ToolsBelow(p, t, born);
    ToolFits(p, t, born, call, edit);
  }

  lemma ToolsBelow(p: State, t: Transcript, born: Births)
    requires Fit(p, t, born)
    ensures forall c :: c in p.tools ==> p.tools[c] <= p.next
  {
    forall c | c in p.tools ensures p.tools[c] <= p.next { assert Card(t.entries, c, p.tools[c]); }
  }

  lemma NoPush(t: Transcript, call: Str, tag: Tag, title: Str, now: nat)
    ensures forall c :: c in ActivityChanges(t, call, tag, title, now) ==> c.SetActivity?
  {
    hide RecordChange;
    hide StepChange;
  }

  lemma NextPushedIgnores(p: State, q: State, r: State, entry: Entry)
    requires NextPushed(q, r, entry) && q.next == p.next && q.tools == p.tools
    ensures NextPushed(p, r, entry)
  {}

  lemma TaggedPushes(p: State, t: Transcript, born: Births, call: Str, tag: Tag, now: nat, patch: Patch)
    requires Fit(p, t, born)
    ensures var (q, changes) := Tagged(p, t, call, tag, now, patch); PushesNext(p, q, t, changes)
  {
    hide Fit;
    hide ToolChange;
    hide ActivityChanges;
    hide NextPushed;
    hide Admitted;
    hide PastCap;
    hide Apply;
    hide Card;
    var (q, admitted) := Admitted(p, t, call, tag);
    AdmittedOnlyCounts(p, t, call, tag);
    FitWellFormed(p, t, born);
    FitIgnores(p, q, t, t, born);
    if admitted {
      var edit := Tagging(patch, tag, now);
      var (r, change) := ToolChange(q, t, call, edit);
      ToolPushes(q, t, born, call, edit);
      ToolFits(q, t, born, call, edit);
      var rest := ActivityChanges(t, call, tag, ToolOf(change).value.title, now);
      assert ([change] + rest)[1..] == rest;
      NoPush(t, call, tag, ToolOf(change).value.title, now);
      if change.Push? { NextPushedIgnores(p, q, r, change.entry); }
    } else {
      var tool := Patched(NewTool(call), patch);
      PastCapOnlySkips(q, t, call, tag, tool.status);
      NoPush(t, call, tag, tool.title, now);
      var changes := ActivityChanges(t, call, tag, tool.title, now);
      assert changes != [] ==> changes[0] in changes;
    }
  }

  lemma UpdatePushes(p: State, t: Transcript, born: Births, op: Op)
    requires Fit(p, t, born) && (op.Call? || op.CallUpdate?)
    ensures PushesNext(p, Do(p, t, op).0, t, Do(p, t, op).1)
  {
    hide Fit;
    hide Tagged;
    hide RecordChange;
    hide OnlyActivities;
    hide NextPushed;
    if op.Call? {
      TaggedPushes(p, t, born, op.call, op.tag, op.now, op.patch);
    } else {
      var stays := op.tag == UNTAGGED && op.stays;
      var ends := op.patch.status.Some? && Ended(op.patch.status.value);
      var r := if op.call in p.todos && (!stays || ends) then p.(todos := p.todos - {op.call}) else p;
      FitWellFormed(p, t, born);
      FitIgnores(p, r, t, t, born);
      TaggedPushes(r, t, born, op.call, op.tag, op.now, op.patch);
      var (q, changes) := Do(p, t, op);
      if changes != [] && changes[0].Push? {
        assert (q, changes) == Tagged(r, t, op.call, op.tag, op.now, op.patch);
        NextPushedIgnores(p, r, q, changes[0].entry);
      }
    }
  }

  lemma MadePushes(p: State, t: Transcript, born: Births, kind: EntryKind, open: Option<Open>)
    requires Fit(p, t, born) && ValidKind(kind) && !kind.ToolCall?
    ensures var (q, change) := Made(p, kind);
      NextPushed(p, q, change.entry) && NextPushed(p, q.(open := open), change.entry)
  {
    hide Card;
    ToolsBelow(p, t, born);
  }

  lemma DoPushes(p: State, t: Transcript, born: Births, op: Op)
    requires Fit(p, t, born)
    ensures PushesNext(p, Do(p, t, op).0, t, Do(p, t, op).1)
  {
    hide Fit;
    hide Tagged;
    hide NextPushed;
    hide ToolChange;
    hide Clip;
    match op
    case Chunk(stream, message, text) =>
      MadePushes(p, t, born, StreamKind(stream, Bounded(text)), Some(Open(p.next + 1, message, stream)));
    case Call(_, _, _, _, _, _) => UpdatePushes(p, t, born, op);
    case CallUpdate(_, _, _, _, _, _) => UpdatePushes(p, t, born, op);
    case AskAbout(call, patch) => ToolPushes(p, t, born, call, Plain(patch));
    case Shot(author, image) => MadePushes(p, t, born, Picture(author, image), None);
    case Say(level, text) => MadePushes(p, t, born, Notice([], None, level, Bounded(text)), None);
    case EndTurn(summary) => MadePushes(p, t, born, Turned(summary), None);
    case Prompt(text, files) => MadePushes(p, t, born, User(Bounded(text), files), None);
    case _ =>
  }

  /** The entry's turn: the pictures are in, and it takes the id after theirs. */
  lemma RenumberedFits(p: State, q: State, t: Transcript, born: Births, entry: Entry)
    requires Fit(p, t, born) && q.next == p.next && q.open == None && ValidKind(entry.kind)
    requires Beside(p.tools, q.tools, entry.kind, entry.id)
    ensures var (last, id) := Renumber(q, entry.id);
      var r := Apply(t, Push(entry.(id := id)));
      id == q.next + 1 && last.next == id && r.Fits? && r.t.activities == t.activities && Fit(last, r.t, born)
  {
    hide Fit;
    hide Apply;
    var (last, id) := Renumber(q, entry.id);
    if c :| c in q.tools && c !in p.tools {
      assert last.tools == p.tools[c := id];
    } else {
      assert last.tools == p.tools;
    }
    PushFits(p, last, t, born, born, entry.kind);
    PushKeepsActivities(t, entry.(id := id));
  }

  lemma WaitingFits(p: State, t: Transcript, born: Births, next: nat)
    requires Fit(p, t, born) && p.next <= next
    ensures Fit(p.(next := next, open := None), t, born)
  {}

  /** Pictures put in before an entry never make it, or them, misfit. */
  lemma InsertedFits(p: State, t: Transcript, born: Births, op: Op, pictures: seq<Inserted>)
    requires Fit(p, t, born) && pictures != []
    requires Do(p, t, op).1 != [] && Do(p, t, op).1[0].Push?
    ensures var (q, changes) := Emitted(p, t, op, pictures);
      Fold(t, changes).Fits? && Fit(q, Fold(t, changes).t, born)
  {
    hide Fit;
    hide Apply;
    hide Do;
    hide Beside;
    hide Shots;
    hide ActivityChanges;
    hide Renumber;
    DoPushes(p, t, born, op);
    var (q, changes) := Do(p, t, op);
    var entry, rest := changes[0].entry, changes[1..];
    var p1 := p.(next := q.next, open := None);
    WaitingFits(p, t, born, q.next);
    ShotsFit(p1, q, t, born, pictures, entry.kind, entry.id);
    var (r, shots) := Shots(q, pictures);
    var u := Fold(t, shots).t;
    RenumberedFits(Shots(p1, pictures).0, r, u, born, entry);
    var (last, id) := Renumber(r, entry.id);
    var push := Push(entry.(id := id));
    var v := Apply(u, push).t;
    RestFits(last, t, v, born, rest);
    FoldCons(u, push, rest);
    FoldConcat(t, shots, [push] + rest);
  }

  lemma RestFits(p: State, t0: Transcript, t: Transcript, born: Births, rest: seq<Change>)
    requires Fit(p, t, born) && OnlyActivities(t0, rest) && t.activities == t0.activities
    ensures Fold(t, rest).Fits? && Fit(p, Fold(t, rest).t, born)
  {
    hide Fit;
    hide ActivityChanges;
    if rest != [] {
      var call, tag, title, now :| rest == ActivityChanges(t0, call, tag, title, now);
      FitWellFormed(p, t, born);
      ActivityChangesFit(t0, t, call, tag, title, now);
      FitIgnores(p, p, t, Fold(t, rest).t, born);
    }
  }

  lemma EmittedFits(p: State, t: Transcript, born: Births, op: Op, pictures: seq<Inserted>) returns (later: Births)
    requires Fit(p, t, born)
    ensures var (q, changes) := Emitted(p, t, op, pictures);
      Fold(t, changes).Fits? && Fit(q, Fold(t, changes).t, later)
  {
    hide Fit;
    hide Apply;
    hide Do;
    var (q, changes) := Do(p, t, op);
    if pictures == [] || changes == [] || !changes[0].Push? {
      later := DoFits(p, t, born, op);
    } else {
      later := born;
      InsertedFits(p, t, born, op, pictures);
    }
  }

  // ----- ids only grow

  /** The ids of the entries pushed, in order, lie strictly between `low` and one past `high`. */
  ghost predicate Rising(changes: seq<Change>, low: nat, high: nat) {
    && low <= high
    && (forall i :: 0 <= i < |changes| && changes[i].Push? ==> low < changes[i].entry.id <= high)
    && (forall i, j :: 0 <= i < j < |changes| && changes[i].Push? && changes[j].Push? ==>
          changes[i].entry.id < changes[j].entry.id)
  }

  lemma RisingConcat(a: seq<Change>, b: seq<Change>, low: nat, mid: nat, high: nat)
    requires Rising(a, low, mid) && Rising(b, mid, high)
    ensures Rising(a + b, low, high)
  {}

  lemma OnePush(rest: seq<Change>, entry: Entry, low: nat)
    requires low < entry.id && forall c :: c in rest ==> !c.Push?
    ensures Rising([Push(entry)] + rest, low, entry.id)
  {}

  lemma {:induction false} ShotsRise(p: State, pictures: seq<Inserted>)
    ensures Rising(Shots(p, pictures).1, p.next, Shots(p, pictures).0.next)
  {
    if pictures != [] {
      var n := |pictures| - 1;
      ShotsRise(p, pictures[..n]);
      var (q, changes) := Shots(p, pictures[..n]);
      var (next, more) := OneShot(q, pictures[n]);
      assert Rising(more, q.next, next.next);
      RisingConcat(changes, more, p.next, q.next, next.next);
    }
  }

  lemma OnlyActivitiesNoPush(t: Transcript, rest: seq<Change>)
    requires OnlyActivities(t, rest)
    ensures forall c :: c in rest ==> !c.Push?
  {
    if rest != [] {
      var call, tag, title, now :| rest == ActivityChanges(t, call, tag, title, now);
      NoPush(t, call, tag, title, now);
    }
  }

  lemma EmittedRises(p: State, t: Transcript, born: Births, op: Op, pictures: seq<Inserted>)
    requires Fit(p, t, born)
    ensures var (q, changes) := Emitted(p, t, op, pictures); Rising(changes, p.next, q.next)
  {
    hide Fit;
    hide Do;
    hide Beside;
    hide Shots;
    hide OnlyActivities;
    DoPushes(p, t, born, op);
    var (q, changes) := Do(p, t, op);
    if changes != [] && changes[0].Push? {
      OnlyActivitiesNoPush(t, changes[1..]);
      OnePush(changes[1..], changes[0].entry, p.next);
      assert changes == [changes[0]] + changes[1..];
      if pictures != [] {
        ShotsRise(q, pictures);
        var (r, shots) := Shots(q, pictures);
        var (last, id) := Renumber(r, changes[0].entry.id);
        OnePush(changes[1..], changes[0].entry.(id := id), r.next);
        RisingConcat(shots, [Push(changes[0].entry.(id := id))] + changes[1..], p.next, r.next, last.next);
      }
    }
  }

  // ----- whole runs

  datatype Step = Step(op: Op, pictures: seq<Inserted>)

  /** A projector whose entries come after `last`. */
  function After(last: EntryId): State { State(last, None, false, map[], map[], {}, map[]) }

  /** Every change a run makes, each update reading the transcript the changes before it made. */
  function Run(p: State, t: Transcript, steps: seq<Step>): (State, seq<Change>) {
    if steps == [] then (p, [])
    else
      var (q, changes) := Run(p, t, steps[..|steps| - 1]);
      var r := Fold(t, changes);
      if r.Refused? then (q, changes)
      else
        var (next, more) := Emitted(q, r.t, steps[|steps| - 1].op, steps[|steps| - 1].pictures);
        (next, changes + more)
  }

  lemma {:induction false} RunFits(p: State, t: Transcript, born: Births, steps: seq<Step>) returns (later: Births)
    requires Fit(p, t, born)
    ensures var (q, changes) := Run(p, t, steps);
      && Fold(t, changes).Fits? && Fit(q, Fold(t, changes).t, later)
      && Rising(changes, p.next, q.next)
  {
    hide Fit;
    hide Emitted;
    hide Apply;
    hide Rising;
    if steps == [] {
      later := born;
      NoneRise(p.next);
    } else {
      var n := |steps| - 1;
      later := RunFits(p, t, born, steps[..n]);
      var (q, changes) := Run(p, t, steps[..n]);
      var u := Fold(t, changes).t;
      EmittedRises(q, u, later, steps[n].op, steps[n].pictures);
      later := EmittedFits(q, u, later, steps[n].op, steps[n].pictures);
      var (next, more) := Emitted(q, u, steps[n].op, steps[n].pictures);
      RisingConcat(changes, more, p.next, q.next, next.next);
      FoldConcat(t, changes, more);
    }
  }

  lemma NoneRise(n: nat)
    ensures Rising([], n, n)
  {}

  /** Every change of every run fits, whatever the session opened with and whatever the agent, the
      user and the eviction do; ids only grow; and each change made goes where it may. */
  lemma EveryRunFits(t: Transcript, last: EntryId, steps: seq<Step>, op: Op) returns (born: Births)
    requires WellFormed(t) && IdsBelow(t.entries, last)
    ensures var (q, changes) := Run(After(last), t, steps);
      && Fold(t, changes).Fits? && Rising(changes, last, q.next)
      && Fit(q, Fold(t, changes).t, born)
      && forall c :: c in Do(q, Fold(t, changes).t, op).1 ==> Aimed(q, Fold(t, changes).t, born, op, c)
  {
    hide Apply;
    hide Do;
    hide Aimed;
    assert Fit(After(last), t, map[]);
    hide Fit;
    hide Rising;
    born := RunFits(After(last), t, map[], steps);
    var (q, changes) := Run(After(last), t, steps);
    DoAims(q, Fold(t, changes).t, born, op);
  }

  // ----- pictures and the entry after them

  /** A picture ends the streaming entry, and the entry it goes in before is renumbered only after
      that. So text that began an entry after pictures never streams on into it: the next chunk of
      the same stream and message starts another entry. Without pictures it appends. */
  lemma PicturesSplitTheMessage(
    p: State, t: Transcript, born: Births, first: Op, then_: Str, pictures: seq<Inserted>, later: Transcript)
    requires Fit(p, t, born) && first.Chunk? && first.text != [] && then_ != []
    requires !Streaming(p, t, first.stream, first.message)
    ensures var (q, changes) := Emitted(p, t, first, pictures);
      var (r, change) := TextChunk(q, later, first.stream, first.message, then_);
      && (pictures != [] ==> change.Some? && change.value.Push?)
      && (pictures == [] && Fold(t, changes) == Fits(later) ==>
            change == var text := Clip(|Bounded(first.text)|, then_);
                      if text.None? then None else Some(Append(p.next + 1, text.value)))
  {
    hide Apply;
    hide Clip;
    hide WellFormed;
    hide Card;
    if pictures != [] {
      ShotsClose(Do(p, t, first).0, pictures);
    } else {
      var kind := StreamKind(first.stream, Bounded(first.text));
      var q := Do(p, t, first).0;
      var born' := born[q.next := (first.stream, first.message)];
      assert born' - {q.next} == born - {q.next};
      PushFits(p, q, t, born, born', kind);
      var change := Push(Entry(q.next, kind));
      FoldOne(t, Some(change));
      if Fold(t, [change]) == Fits(later) {
        WellFormedOrdered(later);
        assert later.entries[|t.entries|] == change.entry;
        EntryAtIs(later, change.entry);
      }
    }
  }

  lemma ShotsClose(p: State, pictures: seq<Inserted>)
    requires pictures != []
    ensures Shots(p, pictures).0.open == None
  {}

  lemma {:induction false} ShotsForget(p: State, pictures: seq<Inserted>, call: Str)
    ensures var q := Shots(p, pictures).0;
      && (call in q.tools <==>
            call in p.tools && forall i :: 0 <= i < |pictures| && pictures[i].cut.Some? ==>
              pictures[i].cut.value <= p.tools[call])
      && (call in q.tools ==> q.tools[call] == p.tools[call])
  {
    if pictures != [] {
      var n := |pictures| - 1;
      ShotsForget(p, pictures[..n], call);
    }
  }

  /** A call's first card stays tracked exactly when no eviction made for the pictures before it
      reaches the id the card was first numbered with; otherwise the card is in the transcript and
      the next update of the call pushes a second one. */
  lemma NewCardTracked(p: State, t: Transcript, born: Births, op: Op, pictures: seq<Inserted>)
    requires Fit(p, t, born)
    requires Do(p, t, op).1 != [] && Do(p, t, op).1[0].Push? && Do(p, t, op).1[0].entry.kind.ToolCall?
    ensures var call := Do(p, t, op).1[0].entry.kind.tool.callId;
      call in Emitted(p, t, op, pictures).0.tools <==>
        forall i :: 0 <= i < |pictures| && pictures[i].cut.Some? ==> pictures[i].cut.value <= p.next + 1
  {
    hide Fit;
    hide Do;
    hide Shots;
    DoPushes(p, t, born, op);
    ToolsBelow(p, t, born);
    var call := Do(p, t, op).1[0].entry.kind.tool.callId;
    ShotsForget(Do(p, t, op).0, pictures, call);
  }
}
