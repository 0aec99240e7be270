/** How a mirrored log's new reading becomes changes (crates/sheprd-acp/src/mirror.rs,
    `changes`), and when applying them gives that reading back. */
module Diff {
  import opened Basics
  import opened Transcripts

  function Retained(entries: seq<Entry>, first: EntryId): seq<Entry> {
    if entries == [] then []
    else
      var last := entries[|entries| - 1];
      Retained(entries[..|entries| - 1], first) + if last.id >= first then [last] else []
  }

  predicate SameIds(old_: seq<Entry>, new_: seq<Entry>) {
    forall i :: 0 <= i < |old_| && i < |new_| ==> old_[i].id == new_[i].id
  }

  /** The first `n` pairs of entries that differ. */
  function Replaces(old_: seq<Entry>, new_: seq<Entry>, n: nat): (r: seq<Change>)
    requires n <= |old_| <= |new_|
    ensures forall c :: c in r ==> c.Replace?
  {
    if n == 0 then []
    else Replaces(old_, new_, n - 1) + if old_[n - 1] != new_[n - 1] then [Replace(new_[n - 1])] else []
  }

  function Pushes(entries: seq<Entry>): (r: seq<Change>)
    ensures forall c :: c in r ==> c.Push?
  {
    if entries == [] then []
    else Pushes(entries[..|entries| - 1]) + [Push(entries[|entries| - 1])]
  }

  function Scalars(previous: Transcript, next: Transcript): (r: seq<Change>) {
    (if previous.session != next.session then [SetSession(next.session)] else [])
    + (if previous.options != next.options then [SetOptions(next.options)] else [])
    + (if previous.usage != next.usage then [SetUsage(next.usage)] else [])
  }

  predicate SomeGone(previous: Transcript, next: Transcript) {
    exists i :: 0 <= i < |previous.activities| && ActivityOf(next, previous.activities[i].callId).None?
  }

  function Reported(previous: Transcript, activities: seq<Activity>): (r: seq<Change>)
    ensures forall c :: c in r ==> c.SetActivity?
  {
    if activities == [] then []
    else
      var last := activities[|activities| - 1];
      Reported(previous, activities[..|activities| - 1])
      + if ActivityOf(previous, last.callId) != Some(last) then [SetActivity(last)] else []
  }

  /** `next` starts after an entry `previous` still has. */
  predicate Dropped(previous: Transcript, next: Transcript)
    requires next.entries != []
  {
    |Retained(previous.entries, next.entries[0].id)| < |previous.entries|
  }

  function Body(previous: Transcript, next: Transcript): seq<Change>
    requires next.entries != []
    requires |Retained(previous.entries, next.entries[0].id)| <= |next.entries|
  {
    var first := next.entries[0].id;
    var retained := Retained(previous.entries, first);
    (if Dropped(previous, next) then [Truncate(first)] else [])
    + Replaces(retained, next.entries, |retained|)
    + Pushes(next.entries[|retained|..])
    + Scalars(previous, next)
    + Reported(previous, next.activities)
  }

  /** `changes`: the changes from one reading to the next, or `None` when only a snapshot will do. */
  function Changes(previous: Transcript, next: Transcript): Option<seq<Change>> {
    if next.entries == [] then None
    else
      var retained := Retained(previous.entries, next.entries[0].id);
      if |retained| > |next.entries| || !SameIds(retained, next.entries)
         || (previous.truncated && !next.truncated) || SomeGone(previous, next)
         || (next.truncated && !previous.truncated && !Dropped(previous, next))
      then None
      else Some(Body(previous, next))
  }

  // The loops of `changes`, pushing into one vector.

  method Keep(entries: seq<Entry>, first: EntryId) returns (retained: seq<Entry>)
    ensures retained == Retained(entries, first)
  {
    retained := [];
    for i := 0 to |entries|
      invariant retained == Retained(entries[..i], first)
    {
      assert entries[..i + 1][..i] == entries[..i];
      if entries[i].id >= first { retained := retained + [entries[i]]; }
    }
    assert entries[..|entries|] == entries;
  }

  method PushEntries(start: seq<Change>, retained: seq<Entry>, entries: seq<Entry>) returns (changes: seq<Change>)
    requires |retained| <= |entries|
    ensures changes == start + Replaces(retained, entries, |retained|) + Pushes(entries[|retained|..])
  {
    changes := start;
    for i := 0 to |retained|
      invariant changes == start + Replaces(retained, entries, i)
    {
      if retained[i] != entries[i] { changes := changes + [Replace(entries[i])]; }
    }
    var added, edits := entries[|retained|..], changes;
    for i := 0 to |added|
      invariant changes == edits + Pushes(added[..i])
    {
      assert added[..i + 1][..i] == added[..i];
      changes := changes + [Push(added[i])];
    }
    assert added[..|added|] == added;
  }

  method PushActivities(start: seq<Change>, previous: Transcript, activities: seq<Activity>)
    returns (changes: seq<Change>)
    ensures changes == start + Reported(previous, activities)
  {
    changes := start;
    for i := 0 to |activities|
      invariant changes == start + Reported(previous, activities[..i])
    {
      assert activities[..i + 1][..i] == activities[..i];
      if ActivityOf(previous, activities[i].callId) != Some(activities[i]) {
        changes := changes + [SetActivity(activities[i])];
      }
    }
    assert activities[..|activities|] == activities;
  }

  method Compute(previous: Transcript, next: Transcript) returns (r: Option<seq<Change>>)
    ensures r == Changes(previous, next)
  {
    if next.entries == [] { return None; }
    var first := next.entries[0].id;
    var retained := Keep(previous.entries, first);
    if |retained| > |next.entries| || !SameIds(retained, next.entries) || (previous.truncated && !next.truncated) {
      return None;
    }
    var changes: seq<Change> := if |retained| < |previous.entries| then [Truncate(first)] else [];
    changes := PushEntries(changes, retained, next.entries);
    ghost var pushed := changes;
    if previous.session != next.session { changes := changes + [SetSession(next.session)]; }
    if previous.options != next.options { changes := changes + [SetOptions(next.options)]; }
    if previous.usage != next.usage { changes := changes + [SetUsage(next.usage)]; }
    assert changes == pushed + Scalars(previous, next);
    if SomeGone(previous, next) { return None; }
    changes := PushActivities(changes, previous, next.activities);
    assert changes == Body(previous, next);
    OnlyCutsTruncate(previous, next);
    if next.truncated && !previous.truncated && !(exists c :: c in changes && c.Truncate?) { return None; }
    r := Some(changes);
  }

  lemma OnlyCutsTruncate(previous: Transcript, next: Transcript)
    requires next.entries != [] && |Retained(previous.entries, next.entries[0].id)| <= |next.entries|
    ensures Dropped(previous, next) <==> exists c :: c in Body(previous, next) && c.Truncate?
  {
    if Dropped(previous, next) { assert Body(previous, next)[0] == Truncate(next.entries[0].id); }
  }

  // ----- what applying them gives

  /** Equal but for the order of the activities, which clients look up by call id. */
  ghost predicate Same(a: Transcript, b: Transcript) {
    && a.(activities := []) == b.(activities := [])
    && forall x :: x in a.activities <==> x in b.activities
  }

  /** The fields `changes` never compares agree. */
  ghost predicate Fixed(a: Transcript, b: Transcript) {
    a.details == b.details && a.permissions == b.permissions
  }

  /** What a client holds after the changes. */
  ghost function Target(previous: Transcript, next: Transcript): Transcript
    requires next.entries != []
  {
    previous.(entries := next.entries, session := next.session, options := next.options, usage := next.usage,
              activities := next.activities, truncated := previous.truncated || Dropped(previous, next))
  }

  lemma {:induction false} RetainedIsSuffix(entries: seq<Entry>, first: EntryId, n: nat)
    requires n <= |entries|
    requires forall i :: 0 <= i < n ==> entries[i].id < first
    requires forall i :: n <= i < |entries| ==> entries[i].id >= first
    ensures Retained(entries, first) == entries[n..]
    decreases |entries|
  {
    if entries != [] {
      var m := |entries| - 1;
      if n <= m {
        RetainedIsSuffix(entries[..m], first, n);
        assert entries[..m][n..] + [entries[m]] == entries[n..];
      } else {
        RetainedIsSuffix(entries[..m], first, m);
      }
    }
  }

  lemma RetainedOrdered(entries: seq<Entry>, first: EntryId)
    requires Ordered(entries)
    ensures Retained(entries, first) == entries[LeadingBefore(entries, first)..]
    ensures Ordered(Retained(entries, first))
  {
    RetainedIsSuffix(entries, first, LeadingBefore(entries, first));
  }

  function Mix(old_: seq<Entry>, new_: seq<Entry>, n: nat): seq<Entry>
    requires n <= |old_| <= |new_|
  {
    new_[..n] + old_[n..]
  }

  lemma MixStep(old_: seq<Entry>, new_: seq<Entry>, n: nat)
    requires n < |old_| <= |new_|
    ensures Mix(old_, new_, n)[n] == old_[n]
    ensures Mix(old_, new_, n)[n := new_[n]] == Mix(old_, new_, n + 1)
    ensures old_[n] == new_[n] ==> Mix(old_, new_, n) == Mix(old_, new_, n + 1)
  {}

  lemma MixOrdered(old_: seq<Entry>, new_: seq<Entry>, n: nat)
    requires n <= |old_| <= |new_| && Ordered(old_) && Ordered(new_) && SameIds(old_, new_)
    ensures Ordered(Mix(old_, new_, n))
  {
    var mid := Mix(old_, new_, n);
    forall i | 0 <= i < |mid| ensures mid[i].id == old_[i].id {}
  }

  lemma ReplacesNext(old_: seq<Entry>, new_: seq<Entry>, n: nat)
    requires n < |old_| <= |new_|
    ensures old_[n] != new_[n] ==> Replaces(old_, new_, n + 1) == Replaces(old_, new_, n) + [Replace(new_[n])]
    ensures old_[n] == new_[n] ==> Replaces(old_, new_, n + 1) == Replaces(old_, new_, n)
  {}

  lemma OneReplace(t: Transcript, new_: seq<Entry>, n: nat)
    requires n < |t.entries| <= |new_|
    requires Ordered(t.entries) && EntriesOk(new_) && SameIds(t.entries, new_)
    ensures Apply(t.(entries := Mix(t.entries, new_, n)), Replace(new_[n]))
         == Fits(t.(entries := Mix(t.entries, new_, n + 1)))
  {
    hide Apply;
    assert new_[n] in new_;
    MixStep(t.entries, new_, n);
    MixOrdered(t.entries, new_, n);
    hide Mix;
    hide Ordered;
    ReplaceAt(t.(entries := Mix(t.entries, new_, n)), n, new_[n]);
  }

  lemma {:induction false} ReplacesApply(t: Transcript, new_: seq<Entry>, n: nat)
    requires n <= |t.entries| <= |new_|
    requires Ordered(t.entries) && EntriesOk(new_) && SameIds(t.entries, new_)
    ensures Fold(t, Replaces(t.entries, new_, n)) == Fits(t.(entries := Mix(t.entries, new_, n)))
  {
    hide Apply;
    hide Ordered;
    hide EntriesOk;
    hide SameIds;
    var old_ := t.entries;
    if n == 0 {
      assert Mix(old_, new_, 0) == old_;
    } else {
      hide Fold;
      hide Mix;
      hide Replaces;
      ReplacesApply(t, new_, n - 1);
      MixStep(old_, new_, n - 1);
      ReplacesNext(old_, new_, n - 1);
      if old_[n - 1] != new_[n - 1] {
        FoldSnoc(t, Replaces(old_, new_, n - 1), Replace(new_[n - 1]));
        OneReplace(t, new_, n - 1);
      }
    }
  }

  lemma {:induction false} PushesApply(t: Transcript, added: seq<Entry>)
    requires EntriesOk(t.entries + added)
    ensures Fold(t, Pushes(added)) == Fits(t.(entries := t.entries + added))
    decreases |added|
  {
    if added == [] {
      assert t.entries + added == t.entries;
    } else {
      var n := |added| - 1;
      var all := t.entries + added;
      var before := t.entries + added[..n];
      assert before == all[..|all| - 1] && before + [added[n]] == all;
      assert all[|all| - 1] in all;
      PushesApply(t, added[..n]);
      FoldSnoc(t, Pushes(added[..n]), Push(added[n]));
      PushAfter(t.(entries := before), added[n]);
    }
  }

  lemma MaybeApply(t: Transcript, differs: bool, change: Change)
    ensures Fold(t, if differs then [change] else []) == if differs then Apply(t, change) else Fits(t)
  {
    FoldSnoc(t, [], change);
    assert [] + [change] == [change];
  }

  lemma ScalarsApply(t: Transcript, previous: Transcript, next: Transcript)
    requires t.session == previous.session && t.options == previous.options && t.usage == previous.usage
    ensures Fold(t, Scalars(previous, next))
         == Fits(t.(session := next.session, options := next.options, usage := next.usage))
  {
    var s := SetSession(next.session);
    var o := SetOptions(next.options);
    var u := SetUsage(next.usage);
    var a := if previous.session != next.session then [s] else [];
    var b := if previous.options != next.options then [o] else [];
    var c := if previous.usage != next.usage then [u] else [];
    var t1 := t.(session := next.session);
    var t2 := t1.(options := next.options);
    MaybeApply(t, previous.session != next.session, s);
    ApplyScalar(t, s);
    MaybeApply(t1, previous.options != next.options, o);
    ApplyScalar(t1, o);
    MaybeApply(t2, previous.usage != next.usage, u);
    ApplyScalar(t2, u);
    FoldConcat(t, a, b);
    FoldConcat(t, a + b, c);
  }

  function Calls(activities: seq<Activity>): set<Str> {
    set x | x in activities :: x.callId
  }

  lemma {:induction false} CountCalls(activities: seq<Activity>)
    requires UniqueCalls(activities)
    ensures |Calls(activities)| == |activities|
  {
    if activities != [] {
      var n := |activities| - 1;
      CountCalls(activities[..n]);
      assert activities == activities[..n] + [activities[n]];
      assert Calls(activities) == Calls(activities[..n]) + {activities[n].callId};
    }
  }

  /** A list that holds another call than `all`'s is shorter than `all`. */
  lemma Room(some: seq<Activity>, all: seq<Activity>, call: Str)
    requires UniqueCalls(some) && UniqueCalls(all)
    requires Calls(some) <= Calls(all) && call in Calls(all) && call !in Calls(some)
    ensures |some| < |all|
  {
    CountCalls(some);
    CountCalls(all);
    assert Calls(some) <= Calls(all) - {call};
    SubsetSize(Calls(some), Calls(all) - {call});
  }

  lemma {:induction false} SubsetSize<T>(a: set<T>, b: set<T>)
    requires a <= b
    ensures |a| <= |b|
  {
    assert b == a + (b - a);
  }

  /** Midway through the activities, a client holds the reported ones and the untouched old ones. */
  ghost predicate Midway(held: seq<Activity>, previous: seq<Activity>, done: seq<Activity>) {
    && ActivitiesOk(held)
    && forall x :: x in held <==> x in done || (x in previous && x.callId !in Calls(done))
  }

  lemma OneActivity(c: Transcript, previous: Transcript, all: seq<Activity>, n: nat)
    requires n < |all| && ActivitiesOk(all) && UniqueCalls(previous.activities)
    requires Calls(previous.activities) <= Calls(all)
    requires Midway(c.activities, previous.activities, all[..n])
    ensures ActivityOf(previous, all[n].callId) != Some(all[n]) ==>
              Record(c, all[n]).Fits?
              && Record(c, all[n]).t == c.(activities := Record(c, all[n]).t.activities)
              && Midway(Record(c, all[n]).t.activities, previous.activities, all[..n + 1])
    ensures ActivityOf(previous, all[n].callId) == Some(all[n]) ==>
              Midway(c.activities, previous.activities, all[..n + 1])
  {
    var x := all[n];
    assert x in all;
    assert all[..n + 1] == all[..n] + [x];
    assert Calls(all[..n + 1]) == Calls(all[..n]) + {x.callId};
    assert x.callId !in Calls(all[..n]);
    var held := c.activities;
    if ActivityOf(previous, x.callId) != Some(x) {
      if x.callId !in Calls(held) {
        forall y | y in held ensures y.callId in Calls(all) {
          assert y in all || y.callId in Calls(previous.activities);
        }
        Room(held, all, x.callId);
      }
      OneActivitySet(c, previous, all, n);
      ActivitiesStayOk(c, x);
    } else {
      forall y | y in previous.activities && y.callId == x.callId ensures y == x {}
    }
  }

  /** With room or a known call, recording an activity replaces the one of its call. */
  lemma Upserted(t: Transcript, x: Activity)
    requires UniqueCalls(t.activities) && x.Fits()
    requires x.callId in Calls(t.activities) || |t.activities| < MAX_ACTIVITIES
    ensures Record(t, x).Fits? && Record(t, x).t == t.(activities := Record(t, x).t.activities)
    ensures forall y :: y in Record(t, x).t.activities <==> y == x || (y in t.activities && y.callId != x.callId)
  {
    var held := t.activities;
    var known := ActivityIndex(held, x.callId);
    var then_ := Record(t, x).t.activities;
    forall y ensures y in then_ <==> y == x || (y in held && y.callId != x.callId) {
      if known.Some? && y in held && y.callId != x.callId {
        var i :| 0 <= i < |held| && held[i] == y;
        assert then_[i] == y;
      }
      if known.Some? { assert then_[known.value] == x; }
    }
  }

  lemma OneActivitySet(c: Transcript, previous: Transcript, all: seq<Activity>, n: nat)
    requires n < |all| && ActivitiesOk(all)
    requires Midway(c.activities, previous.activities, all[..n])
    requires all[n].callId in Calls(c.activities) || |c.activities| < MAX_ACTIVITIES
    ensures Record(c, all[n]).Fits?
    ensures forall y :: y in Record(c, all[n]).t.activities <==>
              y in all[..n + 1] || (y in previous.activities && y.callId !in Calls(all[..n + 1]))
  {
    var x := all[n];
    assert x in all;
    Upserted(c, x);
    assert all[..n + 1] == all[..n] + [x];
    assert Calls(all[..n + 1]) == Calls(all[..n]) + {x.callId};
    forall y | y in all[..n] ensures y.callId != x.callId {}
  }

  lemma ReportedNext(previous: Transcript, all: seq<Activity>, n: nat)
    requires n < |all|
    ensures Reported(previous, all[..n + 1]) == Reported(previous, all[..n])
      + if ActivityOf(previous, all[n].callId) != Some(all[n]) then [SetActivity(all[n])] else []
  {
    assert all[..n + 1][..n] == all[..n];
  }

  lemma {:induction false} ReportedApply(c: Transcript, previous: Transcript, all: seq<Activity>, n: nat)
    returns (t: Transcript)
    requires n <= |all| && ActivitiesOk(all) && UniqueCalls(previous.activities)
    requires Calls(previous.activities) <= Calls(all)
    requires ActivitiesOk(c.activities) && forall x :: x in c.activities <==> x in previous.activities
    ensures Fold(c, Reported(previous, all[..n])) == Fits(t)
    ensures t == c.(activities := t.activities)
    ensures Midway(t.activities, previous.activities, all[..n])
  {
    hide Apply;
    if n == 0 {
      assert all[..0] == [];
      t := c;
    } else {
      hide Fold;
      hide Midway;
      hide Reported;
      hide Record;
      hide ActivityOf;
      hide ActivitiesOk;
      hide UniqueCalls;
      var mid := ReportedApply(c, previous, all, n - 1);
      OneActivity(mid, previous, all, n - 1);
      ReportedNext(previous, all, n - 1);
      var before, x := Reported(previous, all[..n - 1]), all[n - 1];
      if ActivityOf(previous, x.callId) != Some(x) {
        FoldSnoc(c, before, SetActivity(x));
        ApplyActivity(mid, x);
        t := Record(mid, x).t;
      } else {
        assert before + [] == before;
        t := mid;
      }
    }
  }

  lemma CutApplies(c: Transcript, first: EntryId)
    requires Ordered(c.entries)
    ensures var retained := Retained(c.entries, first);
      var dropped := |retained| < |c.entries|;
      Fold(c, if dropped then [Truncate(first)] else [])
      == Fits(c.(entries := retained, truncated := c.truncated || dropped))
  {
    RetainedOrdered(c.entries, first);
    FoldSnoc(c, [], Truncate(first));
    ApplyTruncate(c, first);
    assert [] + [Truncate(first)] == [Truncate(first)];
  }

  lemma EditsApply(t: Transcript, entries: seq<Entry>)
    requires |t.entries| <= |entries| && Ordered(t.entries) && EntriesOk(entries) && SameIds(t.entries, entries)
    ensures Fold(t, Replaces(t.entries, entries, |t.entries|) + Pushes(entries[|t.entries|..]))
         == Fits(t.(entries := entries))
  {
    var n := |t.entries|;
    assert Mix(t.entries, entries, n) == entries[..n];
    ReplacesApply(t, entries, n);
    SplitJoin(entries, n);
    PushesApply(t.(entries := entries[..n]), entries[n..]);
    FoldConcat(t, Replaces(t.entries, entries, n), Pushes(entries[n..]));
  }

  lemma EntriesApply(c: Transcript, entries: seq<Entry>)
    requires entries != [] && EntriesOk(c.entries) && EntriesOk(entries)
    requires var retained := Retained(c.entries, entries[0].id);
      |retained| <= |entries| && SameIds(retained, entries)
    ensures var retained := Retained(c.entries, entries[0].id);
      var dropped := |retained| < |c.entries|;
      Fold(c, (if dropped then [Truncate(entries[0].id)] else [])
              + Replaces(retained, entries, |retained|) + Pushes(entries[|retained|..]))
      == Fits(c.(entries := entries, truncated := c.truncated || dropped))
  {
    var first := entries[0].id;
    var retained := Retained(c.entries, first);
    var cut := if |retained| < |c.entries| then [Truncate(first)] else [];
    var edits, pushes := Replaces(retained, entries, |retained|), Pushes(entries[|retained|..]);
    CutApplies(c, first);
    RetainedOrdered(c.entries, first);
    EditsApply(Fold(c, cut).t, entries);
    FoldConcat(c, cut, edits + pushes);
    ConcatAssoc(cut, edits, pushes);
  }

  /** Applied to any transcript that is `previous` up to activity order, the changes always
      fit, and give exactly `Target`. */
  lemma DiffApplies(c: Transcript, previous: Transcript, next: Transcript)
    requires WellFormed(c) && WellFormed(previous) && WellFormed(next)
    requires Same(c, previous) && Changes(previous, next).Some?
    ensures Fold(c, Changes(previous, next).value).Fits?
    ensures Same(Fold(c, Changes(previous, next).value).t, Target(previous, next))
  {
    var retained := Retained(previous.entries, next.entries[0].id);
    var entries := (if Dropped(previous, next) then [Truncate(next.entries[0].id)] else [])
      + Replaces(retained, next.entries, |retained|) + Pushes(next.entries[|retained|..]);
    var t1 := c.(entries := next.entries, truncated := c.truncated || Dropped(previous, next));
    EntriesApply(c, next.entries);
    var t2 := t1.(session := next.session, options := next.options, usage := next.usage);
    ScalarsApply(t1, previous, next);
    FoldConcat(c, entries, Scalars(previous, next));
    NoneGone(previous, next);
    var all := next.activities;
    assert all[..|all|] == all;
    var t3 := ReportedApply(t2, previous, all, |all|);
    FoldConcat(c, entries + Scalars(previous, next), Reported(previous, all));
    assert Changes(previous, next).value == entries + Scalars(previous, next) + Reported(previous, all);
    forall x | x in previous.activities ensures x.callId in Calls(all) {
      assert x.callId in Calls(previous.activities);
    }
  }

  lemma NoneGone(previous: Transcript, next: Transcript)
    requires !SomeGone(previous, next)
    ensures Calls(previous.activities) <= Calls(next.activities)
  {
    forall call | call in Calls(previous.activities) ensures call in Calls(next.activities) {
      var x :| x in previous.activities && x.callId == call;
      var i :| 0 <= i < |previous.activities| && previous.activities[i] == x;
      assert ActivityOf(next, previous.activities[i].callId).Some?;
    }
  }

  /** Diff soundness, exactly: the changes bring every client of `previous` to `next`
      if and only if the fields never compared agree and nothing was dropped by a reading
      that does not call itself truncated. */
  lemma DiffSound(c: Transcript, previous: Transcript, next: Transcript)
    requires WellFormed(c) && WellFormed(previous) && WellFormed(next)
    requires Same(c, previous) && Changes(previous, next).Some?
    ensures Fold(c, Changes(previous, next).value).Fits?
    ensures Same(Fold(c, Changes(previous, next).value).t, next)
       <==> Fixed(previous, next) && (Dropped(previous, next) ==> next.truncated)
  {
    DiffApplies(c, previous, next);
  }

  // ----- when there is a diff, and what it says

  ghost function Ids(entries: seq<Entry>): set<EntryId> { set e | e in entries :: e.id }

  ghost function IdsFrom(entries: seq<Entry>, first: EntryId): set<EntryId> {
    set e | e in entries && e.id >= first :: e.id
  }

  /** What `previous` has of the span of `next` is how `next` begins. */
  ghost predicate Continues(previous: seq<Entry>, next: seq<Entry>)
    requires next != []
  {
    exists n :: 0 <= n <= |next| && IdsFrom(previous, next[0].id) == Ids(next[..n])
  }

  ghost predicate StartsAfter(previous: seq<Entry>, next: seq<Entry>)
    requires next != []
  {
    exists e :: e in previous && e.id < next[0].id
  }

  /** In order, entries with the same ids are as many and have them in the same places. */
  lemma {:induction false} OrderedAgree(a: seq<Entry>, b: seq<Entry>)
    requires Ordered(a) && Ordered(b) && Ids(a) == Ids(b)
    ensures |a| == |b| && SameIds(a, b)
  {
    if a == [] || b == [] {
      assert a != [] ==> a[0].id in Ids(a);
      assert b != [] ==> b[0].id in Ids(b);
    } else {
      var m, n := |a| - 1, |b| - 1;
      LastIsLargest(a, b);
      LastIsLargest(b, a);
      IdsBefore(a);
      IdsBefore(b);
      OrderedAgree(a[..m], b[..n]);
      forall i | 0 <= i < |a| ensures a[i].id == b[i].id {
        if i < m { assert a[..m][i].id == b[..n][i].id; }
      }
    }
  }

  lemma LastIsLargest(a: seq<Entry>, b: seq<Entry>)
    requires Ordered(b) && a != [] && b != [] && Ids(a) <= Ids(b)
    ensures a[|a| - 1].id <= b[|b| - 1].id
  {
    assert a[|a| - 1].id in Ids(a);
    var e :| e in b && e.id == a[|a| - 1].id;
    var i :| 0 <= i < |b| && b[i] == e;
  }

  lemma IdsBefore(a: seq<Entry>)
    requires Ordered(a) && a != []
    ensures Ids(a[..|a| - 1]) == Ids(a) - {a[|a| - 1].id} && Ordered(a[..|a| - 1])
  {
    var m := |a| - 1;
    forall id | id in Ids(a) && id != a[m].id ensures id in Ids(a[..m]) {
      var e :| e in a && e.id == id;
      var i :| 0 <= i < |a| && a[i] == e;
      assert a[..m][i] == e;
    }
  }

  lemma RetainedHas(entries: seq<Entry>, first: EntryId, e: Entry)
    requires Ordered(entries)
    ensures e in Retained(entries, first) <==> e in entries && e.id >= first
  {
    RetainedOrdered(entries, first);
    var n := LeadingBefore(entries, first);
    if e in entries {
      var i :| 0 <= i < |entries| && entries[i] == e;
      if n <= i {
        assert entries[n..][i - n] == e;
      }
    }
  }

  lemma RetainedIds(entries: seq<Entry>, first: EntryId)
    requires Ordered(entries)
    ensures Ids(Retained(entries, first)) == IdsFrom(entries, first)
  {
    forall e ensures e in Retained(entries, first) <==> e in entries && e.id >= first {
      RetainedHas(entries, first, e);
    }
  }

  lemma ContinuesExactly(previous: seq<Entry>, next: seq<Entry>)
    requires Ordered(previous) && Ordered(next) && next != []
    ensures var retained := Retained(previous, next[0].id);
      Continues(previous, next) <==> |retained| <= |next| && SameIds(retained, next)
  {
    var retained := Retained(previous, next[0].id);
    RetainedOrdered(previous, next[0].id);
    RetainedIds(previous, next[0].id);
    hide Retained;
    if Continues(previous, next) {
      var n :| 0 <= n <= |next| && Ids(retained) == Ids(next[..n]);
      OrderedAgree(retained, next[..n]);
      assert forall i :: 0 <= i < n ==> next[..n][i] == next[i];
    }
    if |retained| <= |next| && SameIds(retained, next) {
      SameIdsSame(retained, next[..|retained|]);
    }
  }

  lemma SameIdsSame(a: seq<Entry>, b: seq<Entry>)
    requires |a| == |b| && SameIds(a, b)
    ensures Ids(a) == Ids(b)
  {
    forall id | id in Ids(a) ensures id in Ids(b) {
      var e :| e in a && e.id == id;
      var i :| 0 <= i < |a| && a[i] == e;
      assert b[i] in b;
    }
    forall id | id in Ids(b) ensures id in Ids(a) {
      var e :| e in b && e.id == id;
      var i :| 0 <= i < |b| && b[i] == e;
      assert a[i] in a;
    }
  }

  lemma DroppedExactly(previous: Transcript, next: Transcript)
    requires Ordered(previous.entries) && next.entries != []
    ensures Dropped(previous, next) <==> StartsAfter(previous.entries, next.entries)
  {
    var entries, first := previous.entries, next.entries[0].id;
    RetainedOrdered(entries, first);
    var n := LeadingBefore(entries, first);
    if n > 0 { assert entries[0] in entries; }
    if StartsAfter(entries, next.entries) {
      var e :| e in entries && e.id < first;
      var i :| 0 <= i < |entries| && entries[i] == e;
      assert n > i;
    }
  }

  lemma NoneGoneExactly(previous: Transcript, next: Transcript)
    ensures !SomeGone(previous, next) <==> Calls(previous.activities) <= Calls(next.activities)
  {
    if !SomeGone(previous, next) { NoneGone(previous, next); }
    if SomeGone(previous, next) {
      var i :| 0 <= i < |previous.activities| && ActivityOf(next, previous.activities[i].callId).None?;
      assert previous.activities[i] in previous.activities;
      assert previous.activities[i].callId in Calls(previous.activities);
    }
  }

  /** There is a diff exactly when the next reading has entries, goes on from the ids the previous one
      had, loses no activity and does not take back that it is truncated, and when it is newly so
      starts after an entry that was there. */
  lemma DiffExists(previous: Transcript, next: Transcript)
    requires Ordered(previous.entries) && Ordered(next.entries)
    ensures Changes(previous, next).Some? <==>
      && next.entries != [] && Continues(previous.entries, next.entries)
      && Calls(previous.activities) <= Calls(next.activities)
      && (previous.truncated ==> next.truncated)
      && (next.truncated && !previous.truncated ==> StartsAfter(previous.entries, next.entries))
  {
    if next.entries != [] {
      ContinuesExactly(previous.entries, next.entries);
      DroppedExactly(previous, next);
      NoneGoneExactly(previous, next);
      hide Continues;
      hide StartsAfter;
      hide SomeGone;
      hide SameIds;
      hide Body;
    }
  }

  /** What has to be said for a client of `previous` to have `next`. */
  ghost predicate Needed(previous: Transcript, next: Transcript, change: Change) {
    match change
    case Truncate(before) =>
      next.entries != [] && before == next.entries[0].id && StartsAfter(previous.entries, next.entries)
    case Replace(entry) =>
      entry in next.entries && exists e :: e in previous.entries && e.id == entry.id && e != entry
    case Push(entry) => entry in next.entries && entry.id !in Ids(previous.entries)
    case SetSession(session) => session == next.session != previous.session
    case SetOptions(options) => options == next.options != previous.options
    case SetUsage(usage) => usage == next.usage != previous.usage
    case SetActivity(activity) => activity in next.activities && activity !in previous.activities
    case _ => false
  }

  ghost predicate Edited(old_: seq<Entry>, new_: seq<Entry>, i: nat, e: Entry) {
    i < |old_| && i < |new_| && old_[i] != new_[i] && e == new_[i]
  }

  lemma {:induction false} ReplacesHas(old_: seq<Entry>, new_: seq<Entry>, n: nat, c: Change)
    requires n <= |old_| <= |new_|
    ensures c in Replaces(old_, new_, n) <==> c.Replace? && exists i :: 0 <= i < n && Edited(old_, new_, i, c.entry)
  {
    if n > 0 {
      ReplacesHas(old_, new_, n - 1, c);
      ReplacesNext(old_, new_, n - 1);
      hide Replaces;
      if c == Replace(new_[n - 1]) && old_[n - 1] != new_[n - 1] { assert Edited(old_, new_, n - 1, c.entry); }
    }
  }

  lemma {:induction false} PushesHas(entries: seq<Entry>, c: Change)
    ensures c in Pushes(entries) <==> c.Push? && c.entry in entries
  {
    if entries != [] {
      var n := |entries| - 1;
      PushesHas(entries[..n], c);
      assert entries == entries[..n] + [entries[n]];
    }
  }

  lemma {:induction false} ReportedHas(previous: Transcript, activities: seq<Activity>, c: Change)
    requires UniqueCalls(previous.activities)
    ensures c in Reported(previous, activities)
       <==> c.SetActivity? && c.activity in activities && c.activity !in previous.activities
  {
    if activities != [] {
      var n := |activities| - 1;
      ReportedHas(previous, activities[..n], c);
      assert activities == activities[..n] + [activities[n]];
      KnownExactly(previous, activities[n]);
    }
  }

  lemma KnownExactly(t: Transcript, x: Activity)
    requires UniqueCalls(t.activities)
    ensures ActivityOf(t, x.callId) == Some(x) <==> x in t.activities
  {
    if x in t.activities {
      var i :| 0 <= i < |t.activities| && t.activities[i] == x;
    }
  }

  /** `retained` is what `previous` has of the span of `next`, which begins with its ids. */
  ghost predicate Kept(previous: seq<Entry>, next: seq<Entry>, retained: seq<Entry>) {
    && next != [] && |retained| <= |next| && Ordered(retained) && Ordered(next) && SameIds(retained, next)
    && forall e :: e in retained <==> e in previous && e.id >= next[0].id
  }

  /** An entry of `next` was there, in its place, or comes after all that were. */
  lemma WherePaired(previous: seq<Entry>, next: seq<Entry>, retained: seq<Entry>, i: nat, e: Entry)
    requires Kept(previous, next, retained) && i < |next| && e in previous && e.id == next[i].id
    ensures i < |retained| && retained[i] == e
  {
    assert next[0].id <= next[i].id;
    var k :| 0 <= k < |retained| && retained[k] == e;
    assert next[k].id == e.id;
  }

  lemma ReplaceNeeded(previous: seq<Entry>, next: seq<Entry>, retained: seq<Entry>, entry: Entry)
    requires Kept(previous, next, retained)
    ensures (exists i :: 0 <= i < |retained| && Edited(retained, next, i, entry))
       <==> entry in next && exists e :: e in previous && e.id == entry.id && e != entry
  {
    if i :| 0 <= i < |retained| && Edited(retained, next, i, entry) {
      assert retained[i] in retained && retained[i].id == next[i].id;
    }
    if entry in next && exists e :: e in previous && e.id == entry.id && e != entry {
      var e :| e in previous && e.id == entry.id && e != entry;
      var i :| 0 <= i < |next| && next[i] == entry;
      WherePaired(previous, next, retained, i, e);
      assert Edited(retained, next, i, entry);
    }
  }

  lemma PushNeeded(previous: seq<Entry>, next: seq<Entry>, retained: seq<Entry>, entry: Entry)
    requires Kept(previous, next, retained)
    ensures entry in next[|retained|..] <==> entry in next && entry.id !in Ids(previous)
  {
    var added := next[|retained|..];
    if entry in next {
      var i :| 0 <= i < |next| && next[i] == entry;
      if i < |retained| {
        assert retained[i] in retained && retained[i].id in Ids(previous);
      } else {
        assert added[i - |retained|] == entry;
      }
      if e :| e in previous && e.id == entry.id {
        WherePaired(previous, next, retained, i, e);
        assert forall k :: 0 <= k < |added| ==> added[k] == next[|retained| + k];
      }
    }
  }

  lemma RetainedKept(previous: Transcript, next: Transcript)
    requires Ordered(previous.entries) && Ordered(next.entries) && Changes(previous, next).Some?
    ensures Kept(previous.entries, next.entries, Retained(previous.entries, next.entries[0].id))
  {
    var first := next.entries[0].id;
    RetainedOrdered(previous.entries, first);
    forall e ensures e in Retained(previous.entries, first) <==> e in previous.entries && e.id >= first {
      RetainedHas(previous.entries, first, e);
    }
  }

  lemma InParts(a: seq<Change>, b: seq<Change>, c: seq<Change>, d: seq<Change>, e: seq<Change>, x: Change)
    ensures x in a + b + c + d + e <==> x in a || x in b || x in c || x in d || x in e
  {}

  lemma ScalarsHas(previous: Transcript, next: Transcript, c: Change)
    ensures c in Scalars(previous, next) <==>
      && Needed(previous, next, c)
      && (c.SetSession? || c.SetOptions? || c.SetUsage?)
  {}

  lemma EditsNeeded(previous: Transcript, next: Transcript, c: Change)
    requires Ordered(previous.entries) && Ordered(next.entries) && Changes(previous, next).Some?
    ensures var retained := Retained(previous.entries, next.entries[0].id);
      && (c in Replaces(retained, next.entries, |retained|) <==> c.Replace? && Needed(previous, next, c))
      && (c in Pushes(next.entries[|retained|..]) <==> c.Push? && Needed(previous, next, c))
  {
    RetainedKept(previous, next);
    var retained := Retained(previous.entries, next.entries[0].id);
    assert |retained| <= |next.entries|;
    hide Changes;
    hide Kept;
    hide Retained;
    ReplacesHas(retained, next.entries, |retained|, c);
    PushesHas(next.entries[|retained|..], c);
    if c.Replace? { ReplaceNeeded(previous.entries, next.entries, retained, c.entry); }
    if c.Push? { PushNeeded(previous.entries, next.entries, retained, c.entry); }
    hide Replaces;
    hide Pushes;
  }

  /** A diff says exactly what has to be said. */
  lemma DiffSaysWhatIsNeeded(previous: Transcript, next: Transcript, c: Change)
    requires WellFormed(previous) && WellFormed(next) && Changes(previous, next).Some?
    ensures c in Changes(previous, next).value <==> Needed(previous, next, c)
  {
    EditsNeeded(previous, next, c);
    DroppedExactly(previous, next);
    ReportedHas(previous, next.activities, c);
    ScalarsHas(previous, next, c);
    hide WellFormed;
    hide Retained;
    hide Replaces;
    hide Pushes;
    hide Scalars;
    hide Reported;
    hide StartsAfter;
    hide SomeGone;
    hide SameIds;
    hide Ids;
    var first := next.entries[0].id;
    var retained := Retained(previous.entries, first);
    var cut := if Dropped(previous, next) then [Truncate(first)] else [];
    InParts(cut, Replaces(retained, next.entries, |retained|), Pushes(next.entries[|retained|..]),
            Scalars(previous, next), Reported(previous, next.activities), c);
    assert c in cut <==> c.Truncate? && Needed(previous, next, c);
  }

  // Nothing is said twice.

  ghost predicate Distinct(s: seq<Change>) { forall i, j :: 0 <= i < j < |s| ==> s[i] != s[j] }

  lemma DistinctConcat(a: seq<Change>, b: seq<Change>)
    requires Distinct(a) && Distinct(b) && forall x :: x in a ==> x !in b
    ensures Distinct(a + b)
  {
    forall i, j | 0 <= i < j < |a + b| ensures (a + b)[i] != (a + b)[j] {
      if i < |a| <= j {
        assert a[i] in a && b[j - |a|] in b;
      }
    }
  }

  lemma {:induction false} ReplacesDistinct(old_: seq<Entry>, new_: seq<Entry>, n: nat)
    requires n <= |old_| <= |new_| && Ordered(new_)
    ensures Distinct(Replaces(old_, new_, n))
  {
    if n > 0 {
      ReplacesDistinct(old_, new_, n - 1);
      ReplacesNext(old_, new_, n - 1);
      var before, c := Replaces(old_, new_, n - 1), Replace(new_[n - 1]);
      ReplacesHas(old_, new_, n - 1, c);
      hide Replaces;
      if old_[n - 1] != new_[n - 1] {
        assert c !in before;
        DistinctConcat(before, [c]);
      }
    }
  }

  lemma {:induction false} PushesDistinct(entries: seq<Entry>)
    requires Ordered(entries)
    ensures Distinct(Pushes(entries))
  {
    if entries != [] {
      var n := |entries| - 1;
      PushesDistinct(entries[..n]);
      PushesHas(entries[..n], Push(entries[n]));
      DistinctConcat(Pushes(entries[..n]), [Push(entries[n])]);
    }
  }

  lemma {:induction false} ReportedDistinct(previous: Transcript, activities: seq<Activity>)
    requires UniqueCalls(previous.activities) && UniqueCalls(activities)
    ensures Distinct(Reported(previous, activities))
  {
    if activities != [] {
      var n := |activities| - 1;
      var before, c := Reported(previous, activities[..n]), SetActivity(activities[n]);
      ReportedDistinct(previous, activities[..n]);
      ReportedHas(previous, activities[..n], c);
      assert activities[n] !in activities[..n];
      DistinctConcat(before, [c]);
      assert before + [] == before;
    }
  }

  /** The order in which a diff says things. */
  function Rank(c: Change): nat {
    if c.Truncate? then 0 else if c.Replace? then 1 else if c.Push? then 2 else 3
  }

  lemma RanksApart(a: seq<Change>, b: seq<Change>, r: nat)
    requires Distinct(a) && Distinct(b)
    requires (forall c :: c in a ==> Rank(c) < r) && (forall c :: c in b ==> Rank(c) >= r)
    ensures Distinct(a + b)
  {
    hide Distinct;
    DistinctConcat(a, b);
  }

  lemma ScalarsDistinct(previous: Transcript, next: Transcript, reported: seq<Change>)
    requires Distinct(reported) && forall c :: c in reported ==> c.SetActivity?
    ensures var all := Scalars(previous, next) + reported;
      Distinct(all) && forall c :: c in all ==> Rank(c) == 3
  {
    DistinctConcat(Scalars(previous, next), reported);
  }

  lemma DiffSaysItOnce(previous: Transcript, next: Transcript)
    requires WellFormed(previous) && WellFormed(next) && Changes(previous, next).Some?
    ensures Distinct(Changes(previous, next).value)
  {
    var retained := Retained(previous.entries, next.entries[0].id);
    var added := next.entries[|retained|..];
    var cut := if Dropped(previous, next) then [Truncate(next.entries[0].id)] else [];
    ReplacesDistinct(retained, next.entries, |retained|);
    PushesDistinct(added);
    ReportedDistinct(previous, next.activities);
    assert Distinct(cut);
    var edits, pushes := Replaces(retained, next.entries, |retained|), Pushes(added);
    var scalars, reported := Scalars(previous, next), Reported(previous, next.activities);
    assert Changes(previous, next).value == cut + edits + pushes + scalars + reported;
    hide Changes;
    hide WellFormed;
    hide Distinct;
    hide Retained;
    hide Replaces;
    hide Pushes;
    hide Scalars;
    hide Reported;
    ScalarsDistinct(previous, next, reported);
    PartsDistinct(cut, edits, pushes, scalars + reported);
    ConcatAssoc(cut + edits + pushes, scalars, reported);
  }

  lemma PartsDistinct(cut: seq<Change>, edits: seq<Change>, pushes: seq<Change>, rest: seq<Change>)
    requires Distinct(cut) && Distinct(edits) && Distinct(pushes) && Distinct(rest)
    requires (forall c :: c in cut ==> c.Truncate?) && (forall c :: c in edits ==> c.Replace?)
    requires (forall c :: c in pushes ==> c.Push?) && (forall c :: c in rest ==> Rank(c) == 3)
    ensures Distinct(cut + edits + pushes + rest)
  {
    hide Distinct;
    RanksApart(cut, edits, 1);
    RanksApart(cut + edits, pushes, 2);
    RanksApart(cut + edits + pushes, rest, 3);
  }

  // ----- the two failing families, each by its smallest input

  const PLAIN := Details([], false, 0, [], None, [], [], true, Idle, None)

  function Reading(details: Details, ids: seq<EntryId>, truncated: bool): Transcript {
    var entries := seq(|ids|, i requires 0 <= i < |ids| => Entry(ids[i], Agent([])));
    Transcript([], details, entries, [], [], None, truncated, None)
  }

  /** A reading that lost its first entry without calling itself truncated leaves clients
      with a flag the server does not have. */
  lemma UntruncatedDropDiverges()
    ensures var previous, next := Reading(PLAIN, [1, 2], false), Reading(PLAIN, [2], false);
      && WellFormed(previous) && WellFormed(next) && Fixed(previous, next)
      && Changes(previous, next).Some? && Fold(previous, Changes(previous, next).value).Fits?
      && !Same(Fold(previous, Changes(previous, next).value).t, next)
  {
    var previous, next := Reading(PLAIN, [1, 2], false), Reading(PLAIN, [2], false);
    RetainedIsSuffix(previous.entries, 2, 1);
    DiffSound(previous, previous, next);
  }

  lemma {:induction false} ReplacesNone(entries: seq<Entry>, n: nat)
    requires n <= |entries|
    ensures Replaces(entries, entries, n) == []
  {
    if n > 0 { ReplacesNone(entries, n - 1); }
  }

  lemma {:induction false} ReportedNone(t: Transcript, n: nat)
    requires UniqueCalls(t.activities) && n <= |t.activities|
    ensures Reported(t, t.activities[..n]) == []
  {
    if n > 0 {
      ReportedNone(t, n - 1);
      assert t.activities[..n][..n - 1] == t.activities[..n - 1];
    }
  }

  lemma StillThere(a: Transcript, b: Transcript)
    requires a.activities == b.activities
    ensures !SomeGone(a, b)
  {}

  lemma NothingNew(entries: seq<Entry>)
    requires Ordered(entries) && entries != []
    ensures Retained(entries, entries[0].id) == entries
    ensures Replaces(entries, entries, |entries|) == []
    ensures Pushes(entries[|entries|..]) == []
  {
    RetainedIsSuffix(entries, entries[0].id, 0);
    ReplacesNone(entries, |entries|);
  }

  /** A reading with entries that differs only in the fields never compared is no change at all; one
      without entries is always a snapshot. */
  lemma UncomparedFieldIsSilent(previous: Transcript, details: Details, permissions: seq<Permission>)
    requires Ordered(previous.entries) && UniqueCalls(previous.activities)
    ensures Changes(previous, previous.(details := details, permissions := permissions))
         == if previous.entries == [] then None else Some([])
  {
    var next := previous.(details := details, permissions := permissions);
    var activities := previous.activities;
    if previous.entries != [] {
      NothingNew(previous.entries);
      StillThere(previous, next);
      ReportedNone(previous, |activities|);
      assert activities[..|activities|] == activities;
      assert Scalars(previous, next) == [];
    }
  }
}
