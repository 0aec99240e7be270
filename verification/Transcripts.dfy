/** The conversation every side holds, and the reducer every side runs
    (crates/sheprd-chat-protocol/src/model.rs and change.rs). A Rust string is its
    UTF-8 bytes, so lengths are byte lengths as in the source. */
module Transcripts {
  import opened Basics

  type Str = seq<byte>
  type EntryId = nat

  const MAX_ACTIVITIES: nat := 32
  const MAX_ACTIVITY_TEXT: nat := 1024
  const MAX_QUESTION_ANSWERS: nat := 32
  const MAX_QUESTION_TEXT: nat := 128 * 1024

  datatype Author = ByUser | ByAgent
  datatype Image = Image(mime: Str, data: Str)
  datatype ToolStatus = Pending | InProgress | Completed | Failed
  datatype ToolKind =
    | Read | Edit | Delete | Move | Search | Execute | Think | Fetch | SwitchMode | Subagent | OtherTool
  datatype ToolContent =
    | ContentText(text: Str)
    | ContentDiff(new_: Str, old_: Option<Str>, path: Str)
    | ContentImage(image: Image)
    | ContentTerminal(id: Str)
  datatype Tool = Tool(
    callId: Str, content: seq<ToolContent>, kind: ToolKind, locations: seq<Str>,
    parent: Option<Str>, startedMs: Option<nat>, status: ToolStatus, title: Str)
  datatype TurnEnd = Done | Cancelled | Limit | RefusedTurn | FailedTurn | OtherEnd
  datatype Tokens = Tokens(cached: nat, input: nat, output: nat, thought: nat, total: nat)
  datatype TurnSummary = TurnSummary(durationMs: nat, endedMs: Option<nat>, end: TurnEnd, tokens: Option<Tokens>)
  datatype NoticeLevel = Info | Warning | Error
  datatype QuestionAnswer = QuestionAnswer(question: Str, answer: Str)

  datatype EntryKind =
    | User(text: Str, files: nat)
    | Agent(text: Str)
    | Thought(text: Str)
    | Picture(author: Author, image: Image)
    | ToolCall(tool: Tool)
    | Turned(summary: TurnSummary)
    | Notice(answers: seq<QuestionAnswer>, details: Option<Str>, level: NoticeLevel, text: Str)
  datatype Entry = Entry(id: EntryId, kind: EntryKind)

  datatype ActivityKind = SubagentActivity | ShellActivity | OtherActivity
  datatype ActivityState = Running | FailedActivity | Killed | Finished
  datatype Activity = Activity(
    callId: Str, detail: Option<Str>, finishedMs: Option<nat>, kind: ActivityKind,
    labelText: Str, startedMs: nat, state: ActivityState)
  {
    predicate IsRunning() { state == Running }

    predicate Fits() {
      && |callId| <= MAX_ACTIVITY_TEXT
      && |labelText| <= MAX_ACTIVITY_TEXT
      && (detail.Some? ==> |detail.value| <= MAX_ACTIVITY_TEXT)
    }
  }

  datatype Status = Starting | Idle | Working | FailedStatus(message: Str) | Exited(message: Str)
  datatype PermissionOption = PermissionOption(id: Str, allows: bool, name: Str)
  datatype Permission = Permission(callId: Option<Str>, id: nat, options: seq<PermissionOption>, title: Str)
  datatype PlanEntry = PlanEntry(content: Str, priority: nat, status: nat)
  datatype Mode = Mode(description: Option<Str>, id: Str, name: Str)
  datatype Modes = Modes(available: seq<Mode>, current: Str)
  datatype Queued = Queued(attachments: seq<Str>, id: nat, text: Str)
  datatype SessionInfo = SessionInfo(cwd: Option<Str>, id: Str, title: Option<Str>)
  datatype SlashCommand = SlashCommand(description: Str, hint: Option<Str>, name: Str)
  datatype Usage = Usage(cost: Option<nat>, size: nat, used: nat)
  datatype OptionKind = Select(choices: seq<Str>, current: Str) | Toggle(on: bool)
  datatype ConfigOption = ConfigOption(category: nat, description: Option<Str>, id: Str, kind: OptionKind, name: Str)

  /** The fields no log reading and no projector entry touches, kept apart from the rest. */
  datatype Details = Details(
    agent: Str, autoAccept: bool, clients: nat, commands: seq<SlashCommand>, modes: Option<Modes>,
    plan: seq<PlanEntry>, queued: seq<Queued>, readOnly: bool, status: Status, turn: Option<nat>)
  datatype Transcript = Transcript(
    activities: seq<Activity>, details: Details, entries: seq<Entry>, options: seq<ConfigOption>,
    permissions: seq<Permission>, session: Option<SessionInfo>, truncated: bool, usage: Option<Usage>)

  datatype Change =
    | Push(entry: Entry)
    | Append(id: EntryId, text: Str)
    | Replace(entry: Entry)
    | Truncate(before: EntryId)
    | SetStatus(status: Status)
    | PermissionAsked(permission: Permission)
    | PermissionResolved(permissionId: nat)
    | SetPlan(plan: seq<PlanEntry>)
    | SetModes(modes: Option<Modes>)
    | CurrentMode(mode: Str)
    | SetOptions(options: seq<ConfigOption>)
    | SetTurn(turn: Option<nat>)
    | SetQueue(queued: seq<Queued>)
    | SetClients(count: nat)
    | SetSession(session: Option<SessionInfo>)
    | SetCommands(commands: seq<SlashCommand>)
    | SetUsage(usage: Option<Usage>)
    | SetAutoAccept(on: bool)
    | SetActivity(activity: Activity)

  datatype Misfit =
    | QuestionAnswersLimit | EntryOrder | UnknownEntry | NotText | DuplicatePermission
    | UnknownPermission | NoModes | ActivityText | ActivityLimit
  datatype Outcome = Fits(t: Transcript) | Refused(why: Misfit)

  function AnswerBytes(answers: seq<QuestionAnswer>): nat {
    if answers == [] then 0
    else |answers[0].question| + |answers[0].answer| + AnswerBytes(answers[1..])
  }

  predicate ValidAnswers(answers: seq<QuestionAnswer>) {
    |answers| <= MAX_QUESTION_ANSWERS && AnswerBytes(answers) <= MAX_QUESTION_TEXT
  }

  predicate ValidKind(kind: EntryKind) {
    kind.Notice? ==> ValidAnswers(kind.answers)
  }

  predicate HasText(kind: EntryKind) {
    kind.User? || kind.Agent? || kind.Thought? || kind.Notice?
  }

  function LastId(t: Transcript): Option<EntryId> {
    if t.entries == [] then None else Some(t.entries[|t.entries| - 1].id)
  }

  /** Where `id` is. The source's binary search finds the same place in every ordered list. */
  function Position(entries: seq<Entry>, id: EntryId): (r: Option<nat>)
    ensures r.Some? ==> r.value < |entries| && entries[r.value].id == id
    ensures r.None? ==> forall i :: 0 <= i < |entries| ==> entries[i].id != id
  {
    if entries == [] then None
    else if entries[|entries| - 1].id == id then Some(|entries| - 1)
    else Position(entries[..|entries| - 1], id)
  }

  function EntryAt(t: Transcript, id: EntryId): Option<Entry> {
    var p := Position(t.entries, id);
    if p.None? then None else Some(t.entries[p.value])
  }

  /** How many leading entries come before `before`. */
  function LeadingBefore(entries: seq<Entry>, before: EntryId): (n: nat)
    ensures n <= |entries|
    ensures forall i :: 0 <= i < n ==> entries[i].id < before
    ensures n < |entries| ==> entries[n].id >= before
  {
    if entries == [] || entries[0].id >= before then 0
    else 1 + LeadingBefore(entries[1..], before)
  }

  /** The first activity `call` started. */
  function ActivityIndex(activities: seq<Activity>, call: Str): (r: Option<nat>)
    ensures r.Some? ==> r.value < |activities| && activities[r.value].callId == call
    ensures r.None? ==> forall i :: 0 <= i < |activities| ==> activities[i].callId != call
  {
    if activities == [] then None
    else if activities[0].callId == call then Some(0)
    else
      var r := ActivityIndex(activities[1..], call);
      if r.None? then None else Some(r.value + 1)
  }

  function ActivityOf(t: Transcript, call: Str): (r: Option<Activity>)
    ensures r.Some? ==> r.value in t.activities && r.value.callId == call
  {
    var i := ActivityIndex(t.activities, call);
    if i.None? then None else Some(t.activities[i.value])
  }

  /** The oldest activity that has ended. */
  function FirstEnded(activities: seq<Activity>): (r: Option<nat>)
    ensures r.Some? ==> r.value < |activities| && !activities[r.value].IsRunning()
    ensures r.Some? ==> forall i :: 0 <= i < r.value ==> activities[i].IsRunning()
    ensures r.None? ==> forall i :: 0 <= i < |activities| ==> activities[i].IsRunning()
  {
    if activities == [] then None
    else if !activities[0].IsRunning() then Some(0)
    else
      var r := FirstEnded(activities[1..]);
      if r.None? then None else Some(r.value + 1)
  }

  lemma SplitJoin<T>(s: seq<T>, n: nat)
    requires n <= |s|
    ensures s[..n] + s[n..] == s
  {}

  lemma ConcatAssoc<T>(a: seq<T>, b: seq<T>, c: seq<T>)
    ensures a + b + c == a + (b + c)
  {}

  function Without<T>(s: seq<T>, i: nat): seq<T>
    requires i < |s|
  {
    s[..i] + s[i + 1..]
  }

  function Record(t: Transcript, activity: Activity): Outcome {
    var known := ActivityIndex(t.activities, activity.callId);
    if !activity.Fits() then Refused(ActivityText)
    else if known.Some? then Fits(t.(activities := t.activities[known.value := activity]))
    else if |t.activities| < MAX_ACTIVITIES then Fits(t.(activities := t.activities + [activity]))
    else
      var ended := FirstEnded(t.activities);
      if ended.None? then Refused(ActivityLimit)
      else Fits(t.(activities := Without(t.activities, ended.value) + [activity]))
  }

  function PermissionIndex(permissions: seq<Permission>, id: nat): (r: Option<nat>)
    ensures r.Some? ==> r.value < |permissions| && permissions[r.value].id == id
    ensures r.None? ==> forall i :: 0 <= i < |permissions| ==> permissions[i].id != id
  {
    if permissions == [] then None
    else if permissions[0].id == id then Some(0)
    else
      var r := PermissionIndex(permissions[1..], id);
      if r.None? then None else Some(r.value + 1)
  }

  function Appended(kind: EntryKind, text: Str): EntryKind
    requires HasText(kind)
  {
    match kind
    case User(had, files) => User(had + text, files)
    case Agent(had) => Agent(had + text)
    case Thought(had) => Thought(had + text)
    case Notice(answers, details, level, had) => Notice(answers, details, level, had + text)
  }

  function PushEntry(t: Transcript, entry: Entry): Outcome {
    if !ValidKind(entry.kind) then Refused(QuestionAnswersLimit)
    else if t.entries != [] && entry.id <= LastId(t).value then Refused(EntryOrder)
    else Fits(t.(entries := t.entries + [entry]))
  }

  function AppendText(t: Transcript, id: EntryId, text: Str): Outcome {
    var p := Position(t.entries, id);
    if p.None? then Refused(UnknownEntry)
    else if !HasText(t.entries[p.value].kind) then Refused(NotText)
    else Fits(t.(entries := t.entries[p.value := Entry(id, Appended(t.entries[p.value].kind, text))]))
  }

  function ReplaceEntry(t: Transcript, entry: Entry): Outcome {
    var p := Position(t.entries, entry.id);
    if !ValidKind(entry.kind) then Refused(QuestionAnswersLimit)
    else if p.None? then Refused(UnknownEntry)
    else Fits(t.(entries := t.entries[p.value := entry]))
  }

  function DropBefore(t: Transcript, before: EntryId): Outcome {
    var keep := LeadingBefore(t.entries, before);
    if keep == 0 then Fits(t) else Fits(t.(entries := t.entries[keep..], truncated := true))
  }

  function Ask(t: Transcript, permission: Permission): Outcome {
    if PermissionIndex(t.permissions, permission.id).Some? then Refused(DuplicatePermission)
    else Fits(t.(permissions := t.permissions + [permission]))
  }

  function Resolve(t: Transcript, id: nat): Outcome {
    var p := PermissionIndex(t.permissions, id);
    if p.None? then Refused(UnknownPermission)
    else Fits(t.(permissions := Without(t.permissions, p.value)))
  }

  function ChooseMode(d: Details, id: Str): Details
    requires d.modes.Some?
  {
    d.(modes := Some(d.modes.value.(current := id)))
  }

  predicate OnDetails(change: Change) {
    change.SetStatus? || change.SetPlan? || change.SetModes? || change.SetTurn? || change.SetQueue?
    || change.SetClients? || change.SetCommands? || change.SetAutoAccept?
  }

  function SetDetails(d: Details, change: Change): Details
    requires OnDetails(change)
  {
    match change
    case SetStatus(status) => d.(status := status)
    case SetPlan(plan) => d.(plan := plan)
    case SetModes(modes) => d.(modes := modes)
    case SetTurn(turn) => d.(turn := turn)
    case SetQueue(queued) => d.(queued := queued)
    case SetClients(count) => d.(clients := count)
    case SetCommands(commands) => d.(commands := commands)
    case SetAutoAccept(on) => d.(autoAccept := on)
  }

  /** `Transcript::apply`: the changed transcript, or why the change does not fit. */
  function Apply(t: Transcript, change: Change): Outcome {
    if OnDetails(change) then Fits(t.(details := SetDetails(t.details, change)))
    else match change
      case Push(entry) => PushEntry(t, entry)
      case Append(id, text) => AppendText(t, id, text)
      case Replace(entry) => ReplaceEntry(t, entry)
      case Truncate(before) => DropBefore(t, before)
      case PermissionAsked(permission) => Ask(t, permission)
      case PermissionResolved(id) => Resolve(t, id)
      case CurrentMode(id) =>
        if t.details.modes.None? then Refused(NoModes) else Fits(t.(details := ChooseMode(t.details, id)))
      case SetSession(session) => Fits(t.(session := session))
      case SetOptions(options) => Fits(t.(options := options))
      case SetUsage(usage) => Fits(t.(usage := usage))
      case SetActivity(activity) => Record(t, activity)
  }

  /** A batch applied in order, stopping at the first change that does not fit. */
  function Fold(t: Transcript, changes: seq<Change>): Outcome {
    if changes == [] then Fits(t)
    else
      var r := Fold(t, changes[..|changes| - 1]);
      if r.Refused? then r else Apply(r.t, changes[|changes| - 1])
  }

  lemma FoldSnoc(t: Transcript, a: seq<Change>, last: Change)
    ensures Fold(t, a + [last]) == var r := Fold(t, a); if r.Refused? then r else Apply(r.t, last)
  {
    assert (a + [last])[..|a|] == a;
  }

  lemma {:induction false} FoldConcat(t: Transcript, a: seq<Change>, b: seq<Change>)
    ensures Fold(t, a + b) == var r := Fold(t, a); if r.Refused? then r else Fold(r.t, b)
  {
    if b == [] {
      assert a + b == a;
    } else {
      var n := |b| - 1;
      FoldConcat(t, a, b[..n]);
      assert (a + b)[..|a + b| - 1] == a + b[..n];
    }
  }

  ghost predicate Ordered(entries: seq<Entry>) {
    forall i, j :: 0 <= i < j < |entries| ==> entries[i].id < entries[j].id
  }

  ghost predicate UniqueCalls(activities: seq<Activity>) {
    forall i, j :: 0 <= i < j < |activities| ==> activities[i].callId != activities[j].callId
  }

  ghost predicate EntriesOk(entries: seq<Entry>) {
    Ordered(entries) && forall e :: e in entries ==> ValidKind(e.kind)
  }

  ghost predicate ActivitiesOk(activities: seq<Activity>) {
    && UniqueCalls(activities)
    && (forall a :: a in activities ==> a.Fits())
    && |activities| <= MAX_ACTIVITIES
  }

  ghost predicate PermissionsOk(permissions: seq<Permission>) {
    forall i, j :: 0 <= i < j < |permissions| ==> permissions[i].id != permissions[j].id
  }

  /** What every transcript a program makes satisfies. */
  ghost predicate WellFormed(t: Transcript) {
    EntriesOk(t.entries) && ActivitiesOk(t.activities) && PermissionsOk(t.permissions)
  }

  lemma UpdateStaysOk(entries: seq<Entry>, p: nat, entry: Entry)
    requires EntriesOk(entries) && p < |entries| && entries[p].id == entry.id && ValidKind(entry.kind)
    ensures EntriesOk(entries[p := entry])
  {}

  lemma PushStaysOk(entries: seq<Entry>, entry: Entry)
    requires EntriesOk(entries) && ValidKind(entry.kind)
    requires entries != [] ==> entries[|entries| - 1].id < entry.id
    ensures EntriesOk(entries + [entry])
  {
    assert forall i :: 0 <= i < |entries| ==> entries[i].id < entry.id;
  }

  lemma EntriesStayOk(t: Transcript, change: Change)
    requires EntriesOk(t.entries) && Apply(t, change).Fits?
    requires change.Push? || change.Append? || change.Replace? || change.Truncate?
    ensures EntriesOk(Apply(t, change).t.entries)
  {
    match change
    case Push(entry) =>
      PushStaysOk(t.entries, entry);
    case Append(id, text) =>
      var p := Position(t.entries, id).value;
      assert t.entries[p] in t.entries;
      UpdateStaysOk(t.entries, p, Entry(id, Appended(t.entries[p].kind, text)));
    case Replace(entry) =>
      UpdateStaysOk(t.entries, Position(t.entries, entry.id).value, entry);
    case Truncate(before) =>
      assert Apply(t, change).t.entries == t.entries[LeadingBefore(t.entries, before)..];
  }

  lemma ActivitiesStayOk(t: Transcript, activity: Activity)
    requires ActivitiesOk(t.activities) && Record(t, activity).Fits?
    ensures ActivitiesOk(Record(t, activity).t.activities)
  {
    var u := Record(t, activity).t;
    forall a | a in u.activities ensures a.Fits() {
      assert a == activity || a in t.activities;
    }
  }

  /** No change that fits breaks what every transcript satisfies, eviction of an ended
      activity included. */
  lemma ApplyKeepsWellFormed(t: Transcript, change: Change)
    requires WellFormed(t) && Apply(t, change).Fits?
    ensures WellFormed(Apply(t, change).t)
  {
    if change.Push? || change.Append? || change.Replace? || change.Truncate? {
      EntriesStayOk(t, change);
    } else if change.SetActivity? {
      ActivitiesStayOk(t, change.activity);
    }
  }

  lemma {:induction false} FoldKeepsWellFormed(t: Transcript, changes: seq<Change>)
    requires WellFormed(t) && Fold(t, changes).Fits?
    ensures WellFormed(Fold(t, changes).t)
  {
    if changes != [] {
      var n := |changes| - 1;
      FoldKeepsWellFormed(t, changes[..n]);
      ApplyKeepsWellFormed(Fold(t, changes[..n]).t, changes[n]);
    }
  }

  lemma PositionUnique(entries: seq<Entry>, i: nat)
    requires Ordered(entries) && i < |entries|
    ensures Position(entries, entries[i].id) == Some(i)
  {}

  lemma ApplyActivity(t: Transcript, activity: Activity)
    ensures Apply(t, SetActivity(activity)) == Record(t, activity)
  {}

  lemma ApplyTruncate(t: Transcript, before: EntryId)
    ensures Apply(t, Truncate(before)) == DropBefore(t, before)
  {}

  lemma ApplyScalar(t: Transcript, change: Change)
    ensures change.SetSession? ==> Apply(t, change) == Fits(t.(session := change.session))
    ensures change.SetOptions? ==> Apply(t, change) == Fits(t.(options := change.options))
    ensures change.SetUsage? ==> Apply(t, change) == Fits(t.(usage := change.usage))
  {}

  lemma ReplaceAt(t: Transcript, i: nat, entry: Entry)
    requires Ordered(t.entries) && i < |t.entries| && t.entries[i].id == entry.id && ValidKind(entry.kind)
    ensures Apply(t, Replace(entry)) == Fits(t.(entries := t.entries[i := entry]))
  {
    PositionUnique(t.entries, i);
  }

  lemma PushAfter(t: Transcript, entry: Entry)
    requires ValidKind(entry.kind)
    requires t.entries != [] ==> t.entries[|t.entries| - 1].id < entry.id
    ensures Apply(t, Push(entry)) == Fits(t.(entries := t.entries + [entry]))
  {}
}
