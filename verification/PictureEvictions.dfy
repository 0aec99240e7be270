/** What making room for pictures does to the call that follows them: `pictures_before` in
    crates/sheprd-acp/src/session/pictures.rs with `bound` and `keep_from` in session.rs. */
module PictureEvictions {
  import opened Basics
  import opened Transcripts
  import opened Projectors
  import S = Sessions
  import D = Diff
  import opened Texts

  function Shot(next: nat, k: nat, image: Image): Entry { Entry(next + k + 1, Picture(ByAgent, image)) }

  /** The pictures as entries, numbered after `next`. */
  function Shotlist(next: nat, images: seq<Image>): (r: seq<Entry>)
    ensures |r| == |images| && forall i :: 0 <= i < |r| ==> r[i].id == next + i + 1
  {
    if images == [] then []
    else
      var n := |images| - 1;
      Shotlist(next, images[..n]) + [Shot(next, n, images[n])]
  }

  /** The pictures with what each made the transcript drop, and the entries left. */
  datatype Room = Room(pictures: seq<Inserted>, entries: seq<Entry>)

  /** Each picture is emitted, and then the oldest entries go as `keep_from` says. */
  function MakeRoom(next: nat, entries: seq<Entry>, images: seq<Image>): (r: Room)
    ensures |r.pictures| == |images|
  {
    if images == [] then Room([], entries)
    else
      var n := |images| - 1;
      var r := MakeRoom(next, entries, images[..n]);
      var all := r.entries + [Shot(next, n, images[n])];
      var drop := S.KeepFrom(all);
      Room(r.pictures + [Inserted(images[n], if drop == 0 then None else Some(all[drop].id))], all[drop..])
  }

  /** These are the evictions a session makes: emitting the pictures leaves exactly those entries. */
  lemma {:induction false} RoomIsMade(p: State, t: Transcript, born: Births, images: seq<Image>)
    requires Fit(p, t, born)
    ensures var (q, changes) := Shots(p, MakeRoom(p.next, t.entries, images).pictures);
      var r := Fold(t, changes);
      r.Fits? && r.t.entries == MakeRoom(p.next, t.entries, images).entries && Fit(q, r.t, born)
      && q.next == p.next + |images|
  {
    hide Fit;
    hide Apply;
    hide Fold;
    hide S.KeepFrom;
    if images == [] {
      FoldNothing(t);
    } else {
      var n := |images| - 1;
      RoomIsMade(p, t, born, images[..n]);
      var before := MakeRoom(p.next, t.entries, images[..n]);
      var room := MakeRoom(p.next, t.entries, images);
      assert room.pictures[..n] == before.pictures;
      var (q, changes) := Shots(p, before.pictures);
      var u := Fold(t, changes).t;
      OneRoom(q, u, born, images[n]);
      FoldConcat(t, changes, OneShot(q, room.pictures[n]).1);
    }
  }

  lemma FoldNothing(t: Transcript)
    ensures Fold(t, []) == Fits(t)
  {}

  lemma OneRoom(p: State, t: Transcript, born: Births, image: Image)
    requires Fit(p, t, born)
    ensures var all := t.entries + [Entry(p.next + 1, Picture(ByAgent, image))];
      var drop := S.KeepFrom(all);
      var picture := Inserted(image, if drop == 0 then None else Some(all[drop].id));
      var (q, changes) := OneShot(p, picture);
      var r := Fold(t, changes);
      r.Fits? && r.t.entries == all[drop..] && Fit(q, r.t, born) && q.next == p.next + 1
  {
    hide Fit;
    hide Apply;
    var kind := Picture(ByAgent, image);
    var all := t.entries + [Entry(p.next + 1, kind)];
    var drop := S.KeepFrom(all);
    var picture := Inserted(image, if drop == 0 then None else Some(all[drop].id));
    AloneBeside(p, t, born);
    OneShotFits(p, p, t, born, picture, Turned(TurnSummary(0, None, Done, None)), p.next + 1);
    var change := Made(p, kind).1;
    MadeFits(p, t, born, kind);
    FoldOne(t, Some(change));
    var u := Apply(t, change).t;
    EntriesPushed(t, change.entry);
    if drop == 0 {
      assert all[0..] == all;
    } else {
      FitWellFormed(Made(p, kind).0, u, born);
      WellFormedOrdered(u);
      S.LeadingExactly(all, drop);
      ApplyTruncate(u, all[drop].id);
      FoldSnoc(t, [change], Truncate(all[drop].id));
      assert [change] + [Truncate(all[drop].id)] == [change, Truncate(all[drop].id)];
    }
  }

  lemma AloneBeside(p: State, t: Transcript, born: Births)
    requires Fit(p, t, born)
    ensures Beside(p.tools, p.tools, Turned(TurnSummary(0, None, Done, None)), p.next + 1)
  {
    ToolsBelow(p, t, born);
  }

  lemma EntriesPushed(t: Transcript, entry: Entry)
    requires Apply(t, Push(entry)).Fits?
    ensures Apply(t, Push(entry)).t.entries == t.entries + [entry]
  {}

  // ----- when the last entry before the pictures is dropped for them

  lemma {:induction false} TotalSnoc<T>(items: seq<T>, size: T -> nat, last: T)
    ensures S.Total(items + [last], size) == S.Total(items, size) + size(last)
  {
    if items == [] {
      assert items + [last] == [last];
    } else {
      TotalSnoc(items[1..], size, last);
      assert (items + [last])[1..] == items[1..] + [last];
    }
  }

  lemma BoundedPrefix(entries: seq<Entry>, last: Entry)
    requires S.Bounded(entries + [last])
    ensures S.Bounded(entries)
  {
    TotalSnoc(entries, S.EntrySize, last);
    TotalSnoc(entries, S.EntryMedia, last);
  }

  /** Whether the entry and the pictures after it may stay together. */
  predicate Together(e: Entry, next: nat, images: seq<Image>) { S.Bounded([e] + Shotlist(next, images)) }

  /** A cut no further than the entries that were there. */
  ghost predicate Reaches(pictures: seq<Inserted>, next: nat) {
    exists i :: 0 <= i < |pictures| && pictures[i].cut.Some? && pictures[i].cut.value > next
  }

  /** The cut of the last picture and what it leaves. */
  lemma RoomNext(next: nat, entries: seq<Entry>, images: seq<Image>, kept: seq<Entry>)
    requires images != []
    requires MakeRoom(next, entries, images[..|images| - 1]).entries == kept + Shotlist(next, images[..|images| - 1])
    ensures var all := kept + Shotlist(next, images);
      var drop := S.KeepFrom(all);
      var room := MakeRoom(next, entries, images);
      && room.entries == all[drop..]
      && room.pictures[|images| - 1].cut == if drop == 0 then None else Some(all[drop].id)
  {
    hide S.KeepFrom;
    var n := |images| - 1;
    var all := kept + Shotlist(next, images[..n]) + [Shot(next, n, images[n])];
    assert all == kept + Shotlist(next, images);
  }

  /** What is left is the entries from the `k`-th on and all the pictures. */
  ghost predicate Leaves(left: seq<Entry>, entries: seq<Entry>, k: nat, shots: seq<Entry>) {
    k <= |entries| && left == entries[k..] + shots
  }

  ghost predicate LeavesSome(left: seq<Entry>, entries: seq<Entry>, shots: seq<Entry>) {
    exists m :: 0 <= m < |entries| && Leaves(left, entries, m, shots)
  }

  lemma StepTogether(next: nat, entries: seq<Entry>, images: seq<Image>, k: nat)
    requires images != [] && k < |entries| && (forall e :: e in entries ==> e.id < next)
    requires var n := |images| - 1;
      MakeRoom(next, entries, images[..n]).entries == entries[k..] + Shotlist(next, images[..n])
    ensures var n := |images| - 1;
      var room := MakeRoom(next, entries, images);
      var cut := room.pictures[n].cut;
      if Together(entries[|entries| - 1], next, images)
      then (cut.Some? ==> cut.value <= next) && LeavesSome(room.entries, entries, Shotlist(next, images))
      else cut.Some? && cut.value > next
  {
    var drop := StepDrops(next, entries, images, k);
    hide MakeRoom;
    hide Together;
    hide LeavesSome;
    hide Shotlist;
    ShotIds(next, images);
    CutLeaves(next, entries, k, drop, Shotlist(next, images));
  }

  /** How many entries the last picture makes the transcript drop. */
  lemma StepDrops(next: nat, entries: seq<Entry>, images: seq<Image>, k: nat) returns (drop: nat)
    requires images != [] && k < |entries|
    requires var n := |images| - 1;
      MakeRoom(next, entries, images[..n]).entries == entries[k..] + Shotlist(next, images[..n])
    ensures var all, room := entries[k..] + Shotlist(next, images), MakeRoom(next, entries, images);
      && drop < |all| && room.entries == all[drop..]
      && room.pictures[|images| - 1].cut == (if drop == 0 then None else Some(all[drop].id))
      && (drop < |entries| - k <==> Together(entries[|entries| - 1], next, images))
  {
    hide S.Bounded;
    hide S.KeepFrom;
    var kept, shots := entries[k..], Shotlist(next, images);
    RoomNext(next, entries, images, kept);
    hide MakeRoom;
    hide Shotlist;
    DropsOlderOnly(kept, shots);
    drop := S.KeepFrom(kept + shots);
  }

  lemma ShotIds(next: nat, images: seq<Image>)
    requires images != []
    ensures var shots := Shotlist(next, images);
      |shots| == |images| && forall i :: 0 <= i < |shots| ==> shots[i].id == next + i + 1
  {
    hide Shotlist;
  }

  lemma CutLeaves(next: nat, entries: seq<Entry>, k: nat, drop: nat, shots: seq<Entry>)
    requires k < |entries| && drop < |entries| - k + |shots| && (forall e :: e in entries ==> e.id < next)
    requires forall i :: 0 <= i < |shots| ==> shots[i].id == next + i + 1
    ensures var all := entries[k..] + shots;
      if drop < |entries| - k then all[drop].id < next && LeavesSome(all[drop..], entries, shots)
      else drop > 0 && all[drop].id > next
  {
    CutAt(next, entries, k, drop, shots);
    if k + drop < |entries| { assert Leaves((entries[k..] + shots)[drop..], entries, k + drop, shots); }
  }

  /** What is left after a cut, and which id it has first. */
  lemma CutAt(next: nat, entries: seq<Entry>, k: nat, drop: nat, shots: seq<Entry>)
    requires k < |entries| && drop < |entries| - k + |shots| && (forall e :: e in entries ==> e.id < next)
    requires forall i :: 0 <= i < |shots| ==> shots[i].id == next + i + 1
    ensures var all := entries[k..] + shots;
      if k + drop < |entries|
      then all[drop].id < next && all[drop..] == entries[k + drop..] + shots
      else drop > 0 && all[drop].id > next
  {
    if k + drop < |entries| {
      assert (entries[k..] + shots)[drop] == entries[k + drop];
      assert entries[k + drop] in entries;
    } else {
      assert (entries[k..] + shots)[drop] == shots[drop - (|entries| - k)];
    }
  }

  /** Only older entries go exactly when the last of them and the pictures may stay together. */
  lemma DropsOlderOnly(kept: seq<Entry>, shots: seq<Entry>)
    requires kept != []
    ensures S.KeepFrom(kept + shots) < |kept| <==> S.Bounded([kept[|kept| - 1]] + shots)
  {
    hide S.Bounded;
    var all, j := kept + shots, |kept| - 1;
    var drop := S.KeepFrom(all);
    assert all[j..] == [kept[j]] + shots;
    if drop <= j {
      S.BoundedSuffix(all[drop..], j - drop);
      assert all[drop..][j - drop..] == all[j..];
    }
  }

  /** Some picture's eviction reaches past every entry that was there exactly when the last of those
      does not fit together with all the pictures. */
  lemma {:induction false} ReachesUnlessTogether(next: nat, entries: seq<Entry>, images: seq<Image>)
    requires entries != [] && images != [] && forall e :: e in entries ==> e.id < next
    ensures Reaches(MakeRoom(next, entries, images).pictures, next) <==> !Together(entries[|entries| - 1], next, images)
    ensures Together(entries[|entries| - 1], next, images) ==>
      LeavesSome(MakeRoom(next, entries, images).entries, entries, Shotlist(next, images))
  {
    hide S.Bounded;
    hide S.KeepFrom;
    hide Together;
    var n := |images| - 1;
    var e := entries[|entries| - 1];
    var before := MakeRoom(next, entries, images[..n]);
    var room := MakeRoom(next, entries, images);
    if n == 0 {
      assert entries[0..] + Shotlist(next, images[..0]) == entries;
      hide MakeRoom;
      StepTogether(next, entries, images, 0);
    } else {
      ReachesMore(before.pictures, room.pictures, next);
      hide MakeRoom;
      hide Reaches;
      ReachesUnlessTogether(next, entries, images[..n]);
      if Together(e, next, images) { TogetherBefore(e, next, images); }
      if Together(e, next, images[..n]) {
        var k :| 0 <= k < |entries| && Leaves(before.entries, entries, k, Shotlist(next, images[..n]));
        StepTogether(next, entries, images, k);
      }
    }
  }

  lemma ReachesMore(before: seq<Inserted>, pictures: seq<Inserted>, next: nat)
    requires pictures != [] && pictures[..|pictures| - 1] == before
    ensures var cut := pictures[|pictures| - 1].cut;
      Reaches(pictures, next) <==> Reaches(before, next) || (cut.Some? && cut.value > next)
  {
    assert forall i :: 0 <= i < |before| ==> pictures[i] == before[i];
  }

  lemma TogetherBefore(e: Entry, next: nat, images: seq<Image>)
    requires images != [] && Together(e, next, images)
    ensures Together(e, next, images[..|images| - 1])
  {
    hide S.Bounded;
    var n := |images| - 1;
    assert [e] + Shotlist(next, images) == [e] + Shotlist(next, images[..n]) + [Shot(next, n, images[n])];
    BoundedPrefix([e] + Shotlist(next, images[..n]), Shot(next, n, images[n]));
  }

  // ----- in bytes

  function ImageBytes(image: Image): nat { |image.data| }

  lemma {:induction false} ShotlistTotals(e: Entry, next: nat, images: seq<Image>)
    ensures S.Total([e] + Shotlist(next, images), S.EntrySize) == S.EntrySize(e)
    ensures S.Total([e] + Shotlist(next, images), S.EntryMedia) == S.EntryMedia(e) + S.Total(images, ImageBytes)
  {
    hide S.EntrySize;
    hide S.EntryMedia;
    if images == [] {
      assert [e] + Shotlist(next, images) == [e];
    } else {
      var n := |images| - 1;
      var shot := Shot(next, n, images[n]);
      ShotlistTotals(e, next, images[..n]);
      var before := [e] + Shotlist(next, images[..n]);
      assert [e] + Shotlist(next, images) == before + [shot];
      TotalSnoc(before, S.EntrySize, shot);
      TotalSnoc(before, S.EntryMedia, shot);
      TotalSnoc(images[..n], ImageBytes, images[n]);
      assert images[..n] + [images[n]] == images;
      PictureWeighs(shot);
    }
  }

  lemma PictureWeighs(shot: Entry)
    requires shot.kind.Picture?
    ensures S.EntrySize(shot) == 0 && S.EntryMedia(shot) == ImageBytes(shot.kind.image)
  {}

  /** The entry before the pictures and all of them are within the count and both byte budgets. */
  predicate PicturesFit(e: Entry, images: seq<Image>) {
    && 1 + |images| <= S.MAX_ENTRIES && S.EntrySize(e) <= S.MAX_TRANSCRIPT_TEXT
    && S.EntryMedia(e) + S.Total(images, ImageBytes) <= S.MAX_TRANSCRIPT_MEDIA
  }

  lemma TogetherInBytes(e: Entry, next: nat, images: seq<Image>)
    requires images != []
    ensures Together(e, next, images) <==> PicturesFit(e, images)
  {
    ShotlistTotals(e, next, images);
  }

  // ----- the call that follows the pictures

  /** Whether the update pushes a call's first card. */
  predicate PushesCard(p: State, t: Transcript, op: Op) {
    var changes := Do(p, t, op).1;
    changes != [] && changes[0].Push? && changes[0].entry.kind.ToolCall?
  }

  /** A call's first card stays tracked if and only if the last entry before the pictures and the
      pictures themselves are within the session's budgets together. */
  lemma CardTrackedInBudget(p: State, t: Transcript, born: Births, op: Op, images: seq<Image>)
    requires Fit(p, t, born) && PushesCard(p, t, op) && t.entries != [] && images != []
    ensures var pictures := MakeRoom(p.next + 1, t.entries, images).pictures;
      Do(p, t, op).1[0].entry.kind.tool.callId in Emitted(p, t, op, pictures).0.tools <==>
        PicturesFit(t.entries[|t.entries| - 1], images)
  {
    hide Do;
    hide Emitted;
    hide Fit;
    hide Together;
    hide LeavesSome;
    var next := p.next + 1;
    var pictures := MakeRoom(next, t.entries, images).pictures;
    hide MakeRoom;
    NewCardTracked(p, t, born, op, pictures);
    EntriesBelow(p, t, born);
    ReachesUnlessTogether(next, t.entries, images);
    TogetherInBytes(t.entries[|t.entries| - 1], next, images);
  }

  /** The pictures that go in before an update's own entry evict exactly so. */
  lemma RoomBeforeEntry(p: State, t: Transcript, born: Births, op: Op, images: seq<Image>)
    requires Fit(p, t, born) && PushesCard(p, t, op)
    ensures var room := MakeRoom(p.next + 1, t.entries, images);
      var r := Fold(t, Shots(Do(p, t, op).0, room.pictures).1);
      r.Fits? && r.t.entries == room.entries
  {
    hide Do;
    hide Fit;
    hide Apply;
    hide MakeRoom;
    hide Shots;
    DoPushes(p, t, born, op);
    var (q, changes) := Do(p, t, op);
    var waiting := p.(next := p.next + 1, open := None);
    WaitingFits(p, t, born, p.next + 1);
    var room := MakeRoom(p.next + 1, t.entries, images);
    RoomIsMade(waiting, t, born, images);
    ShotsFit(waiting, q, t, born, room.pictures, changes[0].entry.kind, changes[0].entry.id);
  }

  lemma EntriesBelow(p: State, t: Transcript, born: Births)
    requires Fit(p, t, born)
    ensures forall e :: e in t.entries ==> e.id < p.next + 1
  {}

  /** When it is not, the card is in the transcript all the same, and the call's next update, if it
      is shown at all, pushes a second one. */
  lemma UntrackedCardIsDoubled(p: State, t: Transcript, born: Births, op: Op, pictures: seq<Inserted>, edit: Edit)
    requires Fit(p, t, born) && PushesCard(p, t, op) && pictures != []
    requires Do(p, t, op).1[0].entry.kind.tool.callId !in Emitted(p, t, op, pictures).0.tools
    ensures var call := Do(p, t, op).1[0].entry.kind.tool.callId;
      var (q, changes) := Emitted(p, t, op, pictures);
      var r := Fold(t, changes);
      && r.Fits? && Fit(q, r.t, born) && (exists id :: Card(r.t.entries, call, id))
      && ToolChange(q, r.t, call, edit).1.Push? && ToolOf(ToolChange(q, r.t, call, edit).1).value.callId == call
  {
    hide Do;
    hide Apply;
    hide Fit;
    var call := Do(p, t, op).1[0].entry.kind.tool.callId;
    InsertedFits(p, t, born, op, pictures);
    DoPushes(p, t, born, op);
    var (q, changes) := Emitted(p, t, op, pictures);
    var entry, rest := Do(p, t, op).1[0].entry, Do(p, t, op).1[1..];
    var shots := Shots(Do(p, t, op).0, pictures).1;
    var id := Renumber(Shots(Do(p, t, op).0, pictures).0, entry.id).1;
    var push := Push(entry.(id := id));
    CardStays(t, t, shots, push, rest);
    var r := Fold(t, changes);
    assert push.entry in r.t.entries;
    assert Card(r.t.entries, call, id);
    ToolFits(q, r.t, born, call, edit);
  }

  lemma CardStays(t0: Transcript, t: Transcript, shots: seq<Change>, push: Change, rest: seq<Change>)
    requires OnlyActivities(t0, rest) && push.Push? && Fold(t, shots + ([push] + rest)).Fits?
    ensures push.entry in Fold(t, shots + ([push] + rest)).t.entries
  {
    hide Apply;
    hide Fold;
    FoldConcat(t, shots, [push] + rest);
    var u := Fold(t, shots).t;
    FoldConcat(u, [push], rest);
    FoldOne(u, Some(push));
    var v := Apply(u, push).t;
    EntriesPushed(u, push.entry);
    OnlyActivitiesKeepEntries(t0, v, rest);
  }

  lemma {:induction false} ActivitiesKeepEntries(t: Transcript, changes: seq<Change>)
    requires (forall c :: c in changes ==> c.SetActivity?) && Fold(t, changes).Fits?
    ensures Fold(t, changes).t.entries == t.entries
  {
    hide Apply;
    hide Record;
    if changes != [] {
      var n := |changes| - 1;
      ActivitiesKeepEntries(t, changes[..n]);
      var u := Fold(t, changes[..n]).t;
      assert changes[n] in changes;
      ApplyActivity(u, changes[n].activity);
      RecordSame(u, u, changes[n].activity);
    }
  }

  lemma OnlyActivitiesKeepEntries(t0: Transcript, t: Transcript, rest: seq<Change>)
    requires OnlyActivities(t0, rest) && Fold(t, rest).Fits?
    ensures Fold(t, rest).t.entries == t.entries
  {
    hide Apply;
    if rest != [] {
      var call, tag, title, now :| rest == ActivityChanges(t0, call, tag, title, now);
      NoPush(t0, call, tag, title, now);
    }
    ActivitiesKeepEntries(t, rest);
  }

  // ----- an input

  const NO_PATCH := Patch(None, None, None, None, None)

  /** "![a](a.png) ![b](b.png)" */
  const LINKS: Str :=
    [0x21, 0x5B, 0x61, 0x5D, 0x28, 0x61, 0x2E, 0x70, 0x6E, 0x67, 0x29, 0x20,
     0x21, 0x5B, 0x62, 0x5D, 0x28, 0x62, 0x2E, 0x70, 0x6E, 0x67, 0x29]

  /** An agent message that links two pictures. */
  const LINKING := D.Reading(D.PLAIN, [], false).(entries := [Entry(1, Agent(LINKS))])

  /** 5 MiB of picture, the most one may have. */
  function Large(): Image { Image([], seq(5 * 1024 * 1024, _ => 0)) }

  /** Two large pictures, then a call: its card is in the transcript and not tracked, and its update
      pushes a second card. */
  lemma TwoLargePicturesDoubleTheCard()
    ensures var op := Call([7], UNTAGGED, NO_PATCH, 0, false, None);
      var pictures := MakeRoom(2, LINKING.entries, [Large(), Large()]).pictures;
      var (q, changes) := Emitted(After(1), LINKING, op, pictures);
      var r := Fold(LINKING, changes);
      && r.Fits? && [7] !in q.tools && (exists id :: Card(r.t.entries, [7], id))
      && ToolChange(q, r.t, [7], Plain(NO_PATCH)).1.Push?
  {
    hide MakeRoom;
    hide Emitted;
    hide Do;
    hide Fit;
    hide Fold;
    hide ToolChange;
    hide Card;
    hide S.Total;
    hide S.EntryMedia;
    hide S.EntrySize;
    var op := Call([7], UNTAGGED, NO_PATCH, 0, false, None);
    var images := [Large(), Large()];
    LinkingFits();
    CardPushed(LINKING, op);
    LargeTotal();
    CardTrackedInBudget(After(1), LINKING, map[], op, images);
    var pictures := MakeRoom(2, LINKING.entries, images).pictures;
    UntrackedCardIsDoubled(After(1), LINKING, map[], op, pictures, Plain(NO_PATCH));
  }

  lemma LinkingFits()
    ensures Fit(After(1), LINKING, map[])
  {}

  lemma LargeTotal()
    ensures S.Total([Large(), Large()], ImageBytes) == 10 * 1024 * 1024
  {
    var images := [Large(), Large()];
    assert images[1..] == [Large()] && images[1..][1..] == [];
  }

  lemma CardPushed(t: Transcript, op: Op)
    requires op == Call([7], UNTAGGED, NO_PATCH, 0, false, None)
    ensures PushesCard(After(1), t, op) && Do(After(1), t, op).1[0].entry.kind.tool.callId == [7]
  {}

  /** A picture, then a thought in two chunks: the second starts an entry of its own. */
  lemma OnePictureSplitsAThought(image: Image)
    ensures var first := Chunk(ThoughtStream, None, [0x41]);
      var (q, changes) := Emitted(After(1), LINKING, first, [Inserted(image, None)]);
      var r := Fold(LINKING, changes);
      r.Fits? && var then_ := TextChunk(q, r.t, ThoughtStream, None, [0x42]).1; then_.Some? && then_.value.Push?
  {
    hide Emitted;
    hide Fit;
    hide Apply;
    hide Clip;
    hide Fold;
    LinkingFits();
    var first := Chunk(ThoughtStream, None, [0x41]);
    var pictures := [Inserted(image, None)];
    var later := EmittedFits(After(1), LINKING, map[], first, pictures);
    var changes := Emitted(After(1), LINKING, first, pictures).1;
    PicturesSplitTheMessage(After(1), LINKING, map[], first, [0x42], pictures, Fold(LINKING, changes).t);
  }
}
