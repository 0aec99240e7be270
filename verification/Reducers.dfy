/** The reducer against a simpler one: the entries as a map from ids to what they hold, the rest field by
    field (crates/sheprd-chat-protocol/src/change.rs). */
module Reducers {
  import opened Basics
  import opened Transcripts
  import D = Diff

  // ----- entries

  /** The entries by id, and whether older ones are gone. */
  datatype Page = Page(book: map<EntryId, EntryKind>, truncated: bool)

  function Book(entries: seq<Entry>): map<EntryId, EntryKind> {
    if entries == [] then map[]
    else
      var last := entries[|entries| - 1];
      Book(entries[..|entries| - 1])[last.id := last.kind]
  }

  function PageOf(t: Transcript): Page { Page(Book(t.entries), t.truncated) }

  predicate OfEntries(change: Change) { change.Push? || change.Append? || change.Replace? || change.Truncate? }

  function WithText(kind: EntryKind, text: Str): EntryKind
    requires HasText(kind)
  {
    kind.(text := text)
  }

  /** What a change does to a page, or that it does not fit: a new id is above all others, text is added
      to what has text, a replaced entry is there, and cutting keeps what is not below the cut. */
  ghost function Turn(page: Page, change: Change): Option<Page>
    requires OfEntries(change)
  {
    match change
    case Push(e) =>
      if ValidKind(e.kind) && (forall id :: id in page.book ==> id < e.id)
      then Some(page.(book := page.book[e.id := e.kind])) else None
    case Append(id, text) =>
      if id in page.book && HasText(page.book[id])
      then Some(page.(book := page.book[id := WithText(page.book[id], page.book[id].text + text)])) else None
    case Replace(e) =>
      if ValidKind(e.kind) && e.id in page.book then Some(page.(book := page.book[e.id := e.kind])) else None
    case Truncate(before) =>
      Some(Page(From(page.book, before), page.truncated || exists id :: id in page.book && id < before))
  }

  lemma {:induction false} BookHas(entries: seq<Entry>, i: nat)
    requires Ordered(entries) && i < |entries|
    ensures entries[i].id in Book(entries) && Book(entries)[entries[i].id] == entries[i].kind
    decreases |entries|
  {
    var n := |entries| - 1;
    if i < n { BookHas(entries[..n], i); }
  }

  lemma {:induction false} BookIds(entries: seq<Entry>, id: EntryId)
    requires id in Book(entries)
    ensures exists i :: 0 <= i < |entries| && entries[i].id == id
    decreases |entries|
  {
    var n := |entries| - 1;
    if entries[n].id != id {
      BookIds(entries[..n], id);
      var i :| 0 <= i < n && entries[..n][i].id == id;
      assert entries[i].id == id;
    }
  }

  /** In order, the entries are what their book says and nothing more. */
  lemma BookDecides(a: seq<Entry>, b: seq<Entry>)
    requires Ordered(a) && Ordered(b) && Book(a) == Book(b)
    ensures a == b
  {
    hide Book;
    forall id ensures id in D.Ids(a) <==> id in D.Ids(b) {
      if id in D.Ids(a) { IdMoves(a, b, id); }
      if id in D.Ids(b) { IdMoves(b, a, id); }
    }
    D.OrderedAgree(a, b);
    forall i | 0 <= i < |a| ensures a[i] == b[i] {
      BookHas(a, i);
      BookHas(b, i);
    }
  }

  lemma IdMoves(a: seq<Entry>, b: seq<Entry>, id: EntryId)
    requires Ordered(a) && Book(a) == Book(b) && id in D.Ids(a)
    ensures id in D.Ids(b)
  {
    hide Book;
    var e :| e in a && e.id == id;
    var i :| 0 <= i < |a| && a[i] == e;
    BookHas(a, i);
    BookIds(b, id);
    var j :| 0 <= j < |b| && b[j].id == id;
    assert b[j] in b;
  }

  lemma {:induction false} BookUpdate(entries: seq<Entry>, i: nat, entry: Entry)
    requires Ordered(entries) && i < |entries| && entries[i].id == entry.id
    ensures Book(entries[i := entry]) == Book(entries)[entry.id := entry.kind]
    decreases |entries|
  {
    var n, after := |entries| - 1, entries[i := entry];
    if i == n {
      assert after[..n] == entries[..n];
    } else {
      assert after[..n] == entries[..n][i := entry];
      BookUpdate(entries[..n], i, entry);
      assert entries[n].id != entry.id;
    }
  }

  ghost function From(book: map<EntryId, EntryKind>, before: EntryId): map<EntryId, EntryKind> {
    map id | id in book && id >= before :: book[id]
  }

  lemma {:induction false} BookSuffix(entries: seq<Entry>, before: EntryId, n: nat)
    requires n <= |entries| && (forall i :: 0 <= i < n ==> entries[i].id < before)
    requires forall i :: n <= i < |entries| ==> entries[i].id >= before
    ensures Book(entries[n..]) == From(Book(entries), before)
    decreases |entries|
  {
    if entries == [] {
      assert From(map[], before) == map[];
    } else {
      var m := |entries| - 1;
      var last := entries[m];
      if n <= m {
        BookSuffix(entries[..m], before, n);
        assert entries[n..] == entries[..m][n..] + [last];
        BookSnoc(entries[..m][n..], last);
        assert From(Book(entries[..m])[last.id := last.kind], before)
          == From(Book(entries[..m]), before)[last.id := last.kind];
      } else {
        BookSuffix(entries[..m], before, m);
        assert entries[n..] == [] && entries[..m][m..] == [];
        assert From(Book(entries[..m])[last.id := last.kind], before) == From(Book(entries[..m]), before);
      }
    }
  }

  lemma SomeBelow(entries: seq<Entry>, before: EntryId)
    requires Ordered(entries)
    ensures LeadingBefore(entries, before) > 0 <==> exists id :: id in Book(entries) && id < before
  {
    hide Book;
    if LeadingBefore(entries, before) > 0 { BookHas(entries, 0); }
    if id :| id in Book(entries) && id < before {
      BookIds(entries, id);
      var j :| 0 <= j < |entries| && entries[j].id == id;
      assert j == 0 || entries[0].id < entries[j].id;
    }
  }

  lemma PositionIs(entries: seq<Entry>, id: EntryId)
    requires Ordered(entries)
    ensures Position(entries, id).Some? <==> id in Book(entries)
    ensures Position(entries, id).Some? ==> entries[Position(entries, id).value].kind == Book(entries)[id]
  {
    hide Book;
    if Position(entries, id).Some? { BookHas(entries, Position(entries, id).value); }
    if id in Book(entries) { BookIds(entries, id); }
  }

  lemma LastIsHighest(entries: seq<Entry>, id: EntryId)
    requires Ordered(entries)
    ensures (forall had :: had in Book(entries) ==> had < id) <==> entries == [] || entries[|entries| - 1].id < id
  {
    hide Book;
    if entries != [] { BookHas(entries, |entries| - 1); }
    forall had | had in Book(entries) ensures entries != [] && had <= entries[|entries| - 1].id {
      BookIds(entries, had);
    }
  }

  lemma BookSnoc(entries: seq<Entry>, entry: Entry)
    ensures Book(entries + [entry]) == Book(entries)[entry.id := entry.kind]
  {
    assert (entries + [entry])[..|entries|] == entries;
  }

  ghost predicate Refines(t: Transcript, change: Change)
    requires OfEntries(change)
  {
    var r, page := Apply(t, change), Turn(PageOf(t), change);
    && (r.Fits? <==> page.Some?)
    && (r.Fits? ==> PageOf(r.t) == page.value && r.t == t.(entries := r.t.entries, truncated := r.t.truncated))
  }

  /** The reducer is the page's: the same changes fit, they do the same to the entries, and to nothing
      else. With `BookDecides` that is every entry in its place. */
  lemma EntriesRefine(t: Transcript, change: Change)
    requires WellFormed(t) && OfEntries(change)
    ensures var r, page := Apply(t, change), Turn(PageOf(t), change);
      && (r.Fits? <==> page.Some?)
      && (r.Fits? ==> PageOf(r.t) == page.value && r.t == t.(entries := r.t.entries, truncated := r.t.truncated))
  {
    OrderedOf(t);
    assert Refines(t, change) by {
      hide Refines;
      match change
      case Push(e) => PushRefines(t, e);
      case Append(id, text) => AppendRefines(t, id, text);
      case Replace(e) => ReplaceRefines(t, e);
      case Truncate(before) => CutRefines(t, before);
    }
    hide Apply;
    hide Turn;
  }

  lemma PushRefines(t: Transcript, e: Entry)
    requires Ordered(t.entries)
    ensures Refines(t, Push(e))
  {
    hide Book;
    LastIsHighest(t.entries, e.id);
    BookSnoc(t.entries, e);
    hide Ordered;
  }

  lemma AppendRefines(t: Transcript, id: EntryId, text: Str)
    requires Ordered(t.entries)
    ensures Refines(t, Append(id, text))
  {
    hide Book;
    hide Ordered;
    PositionIs(t.entries, id);
    var p := Position(t.entries, id);
    if p.Some? && HasText(t.entries[p.value].kind) {
      BookUpdate(t.entries, p.value, Entry(id, Appended(t.entries[p.value].kind, text)));
    }
  }

  lemma ReplaceRefines(t: Transcript, e: Entry)
    requires Ordered(t.entries)
    ensures Refines(t, Replace(e))
  {
    hide Book;
    hide Ordered;
    PositionIs(t.entries, e.id);
    var p := Position(t.entries, e.id);
    if p.Some? { BookUpdate(t.entries, p.value, e); }
  }

  lemma CutRefines(t: Transcript, before: EntryId)
    requires Ordered(t.entries)
    ensures Refines(t, Truncate(before))
  {
    ApplyTruncate(t, before);
    SomeBelow(t.entries, before);
    var n := LeadingBefore(t.entries, before);
    RestNotBelow(t.entries, before, n);
    BookSuffix(t.entries, before, n);
    assert t.entries[0..] == t.entries;
    hide Book;
    hide From;
    hide Apply;
  }

  lemma RestNotBelow(entries: seq<Entry>, before: EntryId, n: nat)
    requires Ordered(entries) && n == LeadingBefore(entries, before)
    ensures forall i :: n <= i < |entries| ==> entries[i].id >= before
  {}

  lemma OrderedOf(t: Transcript)
    requires WellFormed(t)
    ensures Ordered(t.entries)
  {}

  // ----- permissions

  /** A request is asked once and last; resolving takes exactly it away; and resolving what was just
      asked leaves the chat as it was. */
  lemma AskedAndResolved(t: Transcript, permission: Permission)
    requires WellFormed(t)
    ensures var r := Apply(t, PermissionAsked(permission));
      && (r.Refused? <==> exists p :: p in t.permissions && p.id == permission.id)
      && (r.Fits? ==>
            && r.t == t.(permissions := t.permissions + [permission])
            && Apply(r.t, PermissionResolved(permission.id)) == Fits(t))
  {
    hide WellFormed;
    var known := PermissionIndex(t.permissions, permission.id);
    if known.Some? {
      assert t.permissions[known.value] in t.permissions;
    } else {
      LastAsked(t.permissions, permission);
      assert Without(t.permissions + [permission], |t.permissions|) == t.permissions;
    }
  }

  lemma {:induction false} LastAsked(permissions: seq<Permission>, permission: Permission)
    requires forall i :: 0 <= i < |permissions| ==> permissions[i].id != permission.id
    ensures PermissionIndex(permissions + [permission], permission.id) == Some(|permissions|)
    decreases |permissions|
  {
    if permissions == [] {
      assert permissions + [permission] == [permission];
    } else {
      assert (permissions + [permission])[1..] == permissions[1..] + [permission];
      LastAsked(permissions[1..], permission);
    }
  }

  lemma ResolvedIs(t: Transcript, id: nat)
    requires WellFormed(t)
    ensures var r := Apply(t, PermissionResolved(id));
      && (r.Fits? <==> exists p :: p in t.permissions && p.id == id)
      && (r.Fits? ==>
            && r.t == t.(permissions := r.t.permissions) && |r.t.permissions| == |t.permissions| - 1
            && forall p :: p in r.t.permissions <==> p in t.permissions && p.id != id)
  {
    assert PermissionsOk(t.permissions);
    hide WellFormed;
    var all, found := t.permissions, PermissionIndex(t.permissions, id);
    if found.Some? {
      var i := found.value;
      assert all[i] in all;
      WithoutHas(all, i);
    }
  }

  lemma WithoutHas(all: seq<Permission>, i: nat)
    requires PermissionsOk(all) && i < |all|
    ensures forall p :: p in Without(all, i) <==> p in all && p.id != all[i].id
  {
    forall p | p in all && p.id != all[i].id ensures p in Without(all, i) {
      var j :| 0 <= j < |all| && all[j] == p;
      assert Without(all, i)[if j < i then j else j - 1] == p;
    }
    forall p | p in Without(all, i) ensures p in all && p.id != all[i].id {
      var j :| 0 <= j < |all| - 1 && Without(all, i)[j] == p;
      assert all[if j < i then j else j + 1] == p;
    }
  }

  // ----- activities

  /** A new activity in a full list takes the place of the oldest that has ended, and waits outside while
      all run. */
  lemma OldestEndedGoes(t: Transcript, x: Activity)
    requires WellFormed(t) && x.Fits() && |t.activities| >= MAX_ACTIVITIES
    requires forall y :: y in t.activities ==> y.callId != x.callId
    ensures var r, all := Apply(t, SetActivity(x)), t.activities;
      && (r.Fits? <==> exists y :: y in all && !y.IsRunning())
      && (r.Fits? ==>
            exists i :: 0 <= i < |all| && !all[i].IsRunning() && (forall k :: 0 <= k < i ==> all[k].IsRunning())
              && r.t == t.(activities := all[..i] + all[i + 1..] + [x]))
  {
    hide WellFormed;
    ApplyActivity(t, x);
    hide Apply;
    var all, ended := t.activities, FirstEnded(t.activities);
    if known :| known in all && !known.IsRunning() {
      var i :| 0 <= i < |all| && all[i] == known;
    }
    assert ActivityIndex(all, x.callId).None?;
    if ended.Some? { assert all[ended.value] in all; }
  }

  // ----- the other fields

  /** Each of the other changes sets its own field to what it says and leaves every other as it was; a
      mode can be chosen only where there are modes. */
  lemma OthersSet(t: Transcript, change: Change)
    requires OnDetails(change) || change.CurrentMode? || change.SetSession? || change.SetOptions? || change.SetUsage?
    ensures var r := Apply(t, change);
      && (r.Refused? <==> change.CurrentMode? && t.details.modes.None?)
      && (r.Fits? ==>
            var d, had := r.t.details, t.details;
            match change
            case SetStatus(status) => d.status == status && r.t.(details := d.(status := had.status)) == t
            case SetPlan(plan) => d.plan == plan && r.t.(details := d.(plan := had.plan)) == t
            case SetModes(modes) => d.modes == modes && r.t.(details := d.(modes := had.modes)) == t
            case SetTurn(turn) => d.turn == turn && r.t.(details := d.(turn := had.turn)) == t
            case SetQueue(queued) => d.queued == queued && r.t.(details := d.(queued := had.queued)) == t
            case SetClients(count) => d.clients == count && r.t.(details := d.(clients := had.clients)) == t
            case SetCommands(commands) => d.commands == commands && r.t.(details := d.(commands := had.commands)) == t
            case SetAutoAccept(on) => d.autoAccept == on && r.t.(details := d.(autoAccept := had.autoAccept)) == t
            case CurrentMode(mode) =>
              d.modes.Some? && d.modes.value.current == mode
              && d.modes.value.available == had.modes.value.available && r.t.(details := d.(modes := had.modes)) == t
            case SetSession(session) => r.t.session == session && r.t.(session := t.session) == t
            case SetOptions(options) => r.t.options == options && r.t.(options := t.options) == t
            case SetUsage(usage) => r.t.usage == usage && r.t.(usage := t.usage) == t
            case _ => true)
  {}
}
