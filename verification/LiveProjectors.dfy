/** The projector as the object a session updates in place; each method does to its fields what the
    function of the same step does to a value. */
module LiveProjectors {
  import opened Basics
  import opened Transcripts
  import opened Texts
  import opened Projectors

  class Projector {
    var next: nat
    var open: Option<Open>
    var planned: bool
    var skipped: map<Str, Str>
    var steps: map<Str, nat>
    var todos: set<Str>
    var tools: map<Str, EntryId>

    function Now(): State
      reads this
    {
      State(next, open, planned, skipped, steps, todos, tools)
    }

    constructor (last: EntryId)
      ensures Now() == After(last)
    {
      next, open, planned, skipped, steps, todos, tools := last, None, false, map[], map[], {}, map[];
    }

    method NextId() returns (id: EntryId)
      modifies this`next
      ensures id == next == old(next) + 1
    {
      next := next + 1;
      id := next;
    }

    method RenumberEntry(was: EntryId) returns (id: EntryId)
      modifies this`next, this`open, this`tools
      ensures (Now(), id) == Renumber(old(Now()), was)
    {
      id := NextId();
      if open.Some? && open.value.entry == was {
        open := Some(open.value.(entry := id));
      }
      tools := RenumberTools(tools, was, id);
    }

    static method RenumberTools(tracked: map<Str, EntryId>, was: EntryId, id: EntryId)
      returns (tools: map<Str, EntryId>)
      ensures tools == Renamed(tracked, was, id)
    {
      tools := tracked;
      var left := tools.Keys;
      while left != {}
        invariant left <= tools.Keys == tracked.Keys
        invariant forall call :: call in tracked ==>
          tools[call] == if call !in left && tracked[call] == was then id else tracked[call]
        decreases |left|
      {
        var call :| call in left;
        if tools[call] == was { tools := tools[call := id]; }
        left := left - {call};
      }
    }

    /** `notice`, `turn`, `image` and `prompt`: an entry of its own. */
    method Make(kind: EntryKind) returns (change: Change)
      modifies this`next, this`open
      ensures (Now(), change) == Made(old(Now()), kind)
    {
      open := None;
      var id := NextId();
      change := Push(Entry(id, kind));
    }

    method Text(t: Transcript, stream: Stream, message: Option<Str>, text: Str) returns (change: Option<Change>)
      modifies this`next, this`open
      ensures (Now(), change) == TextChunk(old(Now()), t, stream, message, text)
    {
      hide Clip;
      if text == [] { return None; }
      if open.Some? && open.value.stream == stream && open.value.message == message
         && LastId(t) == Some(open.value.entry)
      {
        var entry := EntryAt(t, open.value.entry);
        var have := if entry.None? then 0 else TextLength(entry.value.kind);
        ghost var steps;
        var clipped;
        clipped, steps := ComputeClip(have, text);
        if clipped.None? { return None; }
        return Some(Append(open.value.entry, clipped.value));
      }
      var id := NextId();
      open := Some(Open(id, message, stream));
      change := Some(Push(Entry(id, StreamKind(stream, Bounded(text)))));
    }

    method Tool(t: Transcript, call: Str, edit: Edit) returns (change: Change)
      modifies this`next, this`open, this`tools
      ensures (Now(), change) == ToolChange(old(Now()), t, call, edit)
    {
      hide Edited;
      if call in tools {
        var entry := EntryAt(t, tools[call]);
        if entry.Some? && entry.value.kind.ToolCall? {
          return Replace(Entry(entry.value.id, ToolCall(Edited(entry.value.kind.tool, edit))));
        }
      }
      open := None;
      var id := NextId();
      tools := tools[call := id];
      change := Push(Entry(id, ToolCall(Edited(NewTool(call), edit))));
    }

    method Forget(before: EntryId)
      modifies this`tools
      ensures Now() == ForgetBefore(old(Now()), before)
    {
      tools := map call | call in tools && tools[call] >= before :: tools[call];
    }

    method SkipStep(t: Transcript, call: Str, parent: Str)
      modifies this`skipped
      ensures Now() == Skip(old(Now()), t, call, parent)
    {
      if |skipped| >= MAX_SKIPPED {
        skipped := StillRunning(skipped, t);
      }
      if |skipped| < MAX_SKIPPED {
        skipped := skipped[call := parent];
      }
    }

    method AdmitStep(t: Transcript, parent: Str) returns (shown: bool)
      modifies this`steps
      ensures (Now(), shown) == Admit(old(Now()), t, parent)
    {
      if |steps| > MAX_ACTIVITIES_TRACKED {
        steps := StillListed(steps, t);
      }
      var count := (if parent in steps then steps[parent] else 0) + 1;
      steps := steps[parent := count];
      shown := count <= MAX_STEPS;
    }

    method TagCall(t: Transcript, call: Str, tag: Tag, now: nat, patch: Patch) returns (changes: seq<Change>)
      modifies this
      ensures (Now(), changes) == Tagged(old(Now()), t, call, tag, now, patch)
    {
      hide ToolChange;
      hide Skip;
      hide Admit;
      hide ActivityChanges;
      changes := [];
      var shown := call in tools;
      var skip := call in skipped;
      var admitted := !skip;
      if !skip && !shown && tag.parent.Some? {
        admitted := AdmitStep(t, tag.parent.value);
      }
      ghost var asked := Admitted(old(Now()), t, call, tag);
      assert (Now(), admitted) == asked;
      var tool: Option<Tool>;
      if admitted {
        var change := this.Tool(t, call, Tagging(patch, tag, now));
        tool := ToolOf(change);
        changes := [change];
        assert changes + [] == changes;
      } else {
        var found := Patched(NewTool(call), patch);
        if Ended(found.status) {
          skipped := skipped - {call};
        } else if !shown && tag.parent.Some? {
          SkipStep(t, call, tag.parent.value);
        }
        assert Now() == PastCap(asked.0, t, call, tag, found.status);
        tool := Some(found);
      }
      if tool.None? { return; }
      var more := AboutActivities(t, call, tag, tool.value.title, now);
      assert [] + more == more;
      changes := changes + more;
    }

    method AboutActivities(t: Transcript, call: Str, tag: Tag, title: Str, now: nat) returns (changes: seq<Change>)
      ensures changes == ActivityChanges(t, call, tag, title, now)
    {
      hide RecordChange;
      hide StepChange;
      changes := [];
      if tag.activity.Some? { changes := Listed(RecordChange(t, call, title, tag.activity.value, now)); }
      if tag.parent.Some? { changes := changes + Listed(StepChange(t, tag.parent.value, title)); }
    }

    /** `update`, with what the session itself asks. */
    method Update(t: Transcript, op: Op) returns (changes: seq<Change>)
      modifies this
      ensures (Now(), changes) == Do(old(Now()), t, op)
    {
      hide ToolChange;
      hide TextChunk;
      hide Tagged;
      hide RecordChange;
      changes := [];
      match op
      case Chunk(stream, message, text) =>
        var change := Text(t, stream, message, text);
        changes := Listed(change);
      case Shot(author, image) =>
        var change := Make(Picture(author, image));
        changes := [change];
      case Say(level, text) =>
        var change := Make(Notice([], None, level, Bounded(text)));
        changes := [change];
      case EndTurn(summary) =>
        var change := Make(Turned(summary));
        changes := [change];
      case Prompt(text, files) =>
        var change := Make(User(Bounded(text), files));
        changes := [change];
      case Close =>
        open := None;
      case Call(call, tag, patch, now, todo, plan) =>
        if tag == UNTAGGED && |todos| < MAX_SKIPPED && todo {
          todos := todos + {call};
          return if planned || plan.None? then [] else [SetPlan(plan.value)];
        }
        changes := TagCall(t, call, tag, now, patch);
      case CallUpdate(call, tag, patch, now, stays, plan) =>
        changes := UpdateCall(t, op);
      case AskAbout(call, patch) =>
        var change := Tool(t, call, Plain(patch));
        changes := [change];
      case NewPlan(entries) =>
        planned := true;
        changes := [SetPlan(entries)];
      case NewMode(mode) =>
        if t.details.modes.Some? { changes := [CurrentMode(mode)]; }
      case Trim(before) =>
        Forget(before);
        changes := [Truncate(before)];
    }

    method UpdateCall(t: Transcript, op: Op) returns (changes: seq<Change>)
      requires op.CallUpdate?
      modifies this
      ensures (Now(), changes) == OnCallUpdate(old(Now()), t, op)
    {
      hide Tagged;
      hide RecordChange;
      var call := op.call;
      if call in todos {
        var stays := op.tag == UNTAGGED && op.stays;
        if !stays || (op.patch.status.Some? && Ended(op.patch.status.value)) {
          todos := todos - {call};
        }
        if stays { return if planned || op.plan.None? then [] else [SetPlan(op.plan.value)]; }
      }
      var shown := call in tools && EntryAt(t, tools[call]).Some?;
      var known := ActivityOf(t, call);
      if !shown && op.tag.activity.Some? && known.Some? {
        return Listed(RecordChange(t, call, known.value.labelText, op.tag.activity.value, op.now));
      }
      changes := TagCall(t, call, op.tag, op.now, op.patch);
    }
  }
}
