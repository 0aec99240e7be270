/** What a TestFlight build says it changed, and how the next build reads back where it came from
    (ios/tools/testflight_notes.py). */
module ReleaseNotes {
  import opened Basics
  import opened Strings

  const GROUPS: seq<string> := ["Security", "Added", "Changed", "Fixed"]
  const SECURITY: nat := 0
  const ADDED: nat := 1
  const CHANGED: nat := 2
  const FIXED: nat := 3
  const SHA_LENGTH := 12

  /** Upper case and decimal digits, as the source's strings know them. */
  datatype Unicode = Unicode(upper: char -> string, digit: char -> bool)

  predicate OneLine(s: string) { '\n' !in s }

  // ----- entries

  datatype Entry = Entry(group: nat, text: string)

  function Letters(s: string, i: nat): (r: nat)
    requires i <= |s|
    ensures i <= r <= |s|
    decreases |s| - i
  {
    if i < |s| && 'a' <= s[i] <= 'z' then Letters(s, i + 1) else i
  }

  /** A conventional subject: its type, scope, whether it breaks, and its text. */
  datatype Subject = Subject(kind: string, scope: Option<string>, breaking: bool, text: string)

  /** A scope in parentheses, when there is one, and what follows. */
  function ReadScope(t: string): (Option<string>, string) {
    var close := if t != "" && t[0] == '(' then FindClose(t, 1) else |t|;
    if close < |t| then (Some(t[1..close]), t[close + 1..]) else (None, t)
  }

  /** Without one line break at the end, before which the source's patterns may end too. */
  function Chomp(s: string): string { if s != "" && s[|s| - 1] == '\n' then s[..|s| - 1] else s }

  /** Whether it breaks, and its text, which is one line. */
  function ReadText(t: string): Option<(bool, string)> {
    var breaking := t != "" && t[0] == '!';
    var rest := if breaking then t[1..] else t;
    if !StartsWith(rest, ": ") then None
    else
      var text := Chomp(rest[2..]);
      if text != "" && OneLine(text) then Some((breaking, text)) else None
  }

  function Parse(s: string): (r: Option<Subject>)
    ensures r.Some? ==> OneLine(r.value.text)
  {
    var n := Letters(s, 0);
    var (scope, after) := ReadScope(s[n..]);
    var found := ReadText(after);
    if n == 0 || found.None? then None else Some(Subject(s[..n], scope, found.value.0, found.value.1))
  }

  /** The subject as its parts write it. */
  function Written(m: Subject): string {
    m.kind + (ScopeText(m.scope) + BodyText(m.breaking, m.text))
  }

  function ScopeText(scope: Option<string>): string { if scope.None? then "" else "(" + scope.value + ")" }

  function BodyText(breaking: bool, text: string): string { (if breaking then "!" else "") + (": " + text) }

  predicate Conventional(m: Subject) {
    && m.kind != "" && (forall i :: 0 <= i < |m.kind| ==> 'a' <= m.kind[i] <= 'z')
    && m.text != "" && OneLine(m.text)
    && (m.scope.Some? ==> ')' !in m.scope.value)
  }

  lemma {:induction false} LettersAre(s: string, i: nat, n: nat)
    requires i <= n <= |s| && (forall j :: i <= j < n ==> 'a' <= s[j] <= 'z') && (n < |s| ==> !('a' <= s[n] <= 'z'))
    ensures Letters(s, i) == n
    decreases n - i
  {
    if i < n { LettersAre(s, i + 1, n); }
  }

  lemma {:induction false} LettersMean(s: string, i: nat)
    requires i <= |s|
    ensures forall j :: i <= j < Letters(s, i) ==> 'a' <= s[j] <= 'z'
    decreases |s| - i
  {
    if i < |s| && 'a' <= s[i] <= 'z' { LettersMean(s, i + 1); }
  }

  lemma {:induction false} CloseMeans(s: string, from: nat)
    requires from <= |s|
    ensures forall j :: from <= j < FindClose(s, from) ==> s[j] != ')'
    ensures FindClose(s, from) < |s| ==> s[FindClose(s, from)] == ')'
    decreases |s| - from
  {
    if from < |s| && s[from] != ')' { CloseMeans(s, from + 1); }
  }

  /** The parts write the subject, which may end in a line break. */
  predicate Writes(m: Subject, s: string) { Conventional(m) && (s == Written(m) || s == Written(m) + "\n") }

  /** A subject is read into parts exactly when those parts write it. */
  lemma ParseIsWritten(s: string, m: Subject)
    ensures Parse(s) == Some(m) <==> Writes(m, s)
  {
    if Parse(s) == Some(m) { ParsedWrites(s, m); }
    if Writes(m, s) {
      hide Parse;
      hide Written;
      hide Conventional;
      var end := if s == Written(m) then "" else "\n";
      assert Written(m) + "" == Written(m);
      WrittenParses(m, end);
    }
  }

  lemma ScopeIsText(t: string)
    ensures var (scope, after) := ReadScope(t);
      t == ScopeText(scope) + after && (scope.Some? ==> ')' !in scope.value)
  {
    if t != "" && t[0] == '(' {
      CloseMeans(t, 1);
      var close := FindClose(t, 1);
      if close < |t| { assert t == "(" + t[1..close] + ")" + t[close + 1..]; }
    }
  }

  lemma TextIsScope(scope: Option<string>, after: string)
    requires (scope.Some? ==> ')' !in scope.value) && after != "" && after[0] != '('
    ensures ReadScope(ScopeText(scope) + after) == (scope, after)
  {
    var t := ScopeText(scope) + after;
    if scope.Some? {
      var close := 1 + |scope.value|;
      assert t[0] == '(' && t[close] == ')' && t[1..close] == scope.value && t[close + 1..] == after;
      assert forall i :: 1 <= i < close ==> t[i] == scope.value[i - 1];
      FindCloseIs(t, 1, close);
    } else {
      assert t == after;
    }
  }

  lemma ChompIs(s: string)
    ensures s == Chomp(s) || s == Chomp(s) + "\n"
  {}

  lemma AfterColon(rest: string)
    requires StartsWith(rest, ": ")
    ensures rest == ": " + rest[2..]
  {
    assert rest == rest[..2] + rest[2..];
  }

  lemma Regroup(a: string, b: string, c: string, d: string)
    ensures a + (b + c) + d == a + (b + (c + d))
  {}

  lemma BodyIsText(t: string)
    ensures ReadText(t).Some? ==>
      var (breaking, text) := ReadText(t).value;
      && text != "" && OneLine(text)
      && (t == BodyText(breaking, text) || t == BodyText(breaking, text) + "\n")
  {
    if ReadText(t).Some? {
      var breaking := t[0] == '!';
      var rest := if breaking then t[1..] else t;
      var bang, text := if breaking then "!" else "", Chomp(rest[2..]);
      assert t == bang + rest;
      AfterColon(rest);
      ChompIs(rest[2..]);
      Ended(bang, rest, text);
    }
  }

  lemma Ended(bang: string, rest: string, text: string)
    requires rest == ": " + text || rest == ": " + (text + "\n")
    ensures bang + rest == bang + (": " + text) || bang + rest == bang + (": " + text) + "\n"
  {
    Regroup(bang, ": ", text, "\n");
  }

  lemma TextIsBody(breaking: bool, text: string, end: string)
    requires text != "" && OneLine(text) && (end == "" || end == "\n")
    ensures ReadText(BodyText(breaking, text) + end) == Some((breaking, text))
    ensures var t := BodyText(breaking, text) + end; t[0] == '!' || t[0] == ':'
  {
    var t, rest := BodyText(breaking, text) + end, ": " + text + end;
    assert rest[..2] == ": " && rest[2..] == text + end;
    assert Chomp(text + end) == text by {
      if end == "" {
        assert text + end == text && text[|text| - 1] in text;
      } else {
        assert (text + end)[..|text|] == text;
      }
    }
    if breaking { assert t[1..] == rest; } else { assert t == rest; }
  }

  lemma ParsedWrites(s: string, m: Subject)
    requires Parse(s) == Some(m)
    ensures Writes(m, s)
  {
    hide ReadScope;
    hide ReadText;
    hide ScopeText;
    hide BodyText;
    var n := Letters(s, 0);
    LettersMean(s, 0);
    ScopeIsText(s[n..]);
    var after := ReadScope(s[n..]).1;
    BodyIsText(after);
    assert s == s[..n] + s[n..];
    var body := BodyText(m.breaking, m.text);
    Regroup(m.kind, ScopeText(m.scope), body, "\n");
  }

  lemma WrittenParses(m: Subject, end: string)
    requires Conventional(m) && (end == "" || end == "\n")
    ensures Parse(Written(m) + end) == Some(m)
  {
    var s, n := Written(m) + end, |m.kind|;
    var body := BodyText(m.breaking, m.text) + end;
    TextIsBody(m.breaking, m.text, end);
    TextIsScope(m.scope, body);
    var t := ScopeText(m.scope) + body;
    assert t[0] == if m.scope.Some? then '(' else body[0];
    hide ReadScope;
    hide ReadText;
    hide ScopeText;
    hide BodyText;
    hide OneLine;
    Regroup(m.kind, ScopeText(m.scope), BodyText(m.breaking, m.text), end);
    assert s == m.kind + t;
    assert s[..n] == m.kind && s[n..] == t && s[n] == t[0];
    LettersAre(s, 0, n);
  }

  function DigitsBack(s: string, i: nat, u: Unicode): (r: nat)
    requires i <= |s|
    ensures r <= i
  {
    if i > 0 && u.digit(s[i - 1]) then DigitsBack(s, i - 1, u) else i
  }

  /** Without a pull request's number at the end. */
  function Unnumbered(s: string, u: Unicode): (r: string)
    ensures OneLine(s) ==> OneLine(r)
  {
    var line := Chomp(s);
    Bare(line, u) + s[|line|..]
  }

  function Bare(s: string, u: Unicode): (r: string)
    ensures OneLine(s) ==> OneLine(r)
  {
    if s == "" || s[|s| - 1] != ')' then s
    else
      var n := DigitsBack(s, |s| - 1, u);
      if n == |s| - 1 || n < 2 || s[n - 2..n] != "(#" then s
      else
        RStripIn(s[..n - 2]);
        RStrip(s[..n - 2])
  }

  lemma {:induction false} RStripIn(s: string)
    ensures forall c :: c in RStrip(s) ==> c in s
  {
    if s != [] && Space(s[|s| - 1]) { RStripIn(s[..|s| - 1]); }
  }

  const HIDDEN: set<string> := {"build", "chore", "ci", "docs", "style", "test"}

  function ShownGroup(kind: string): Option<nat> {
    if kind == "feat" then Some(ADDED)
    else if kind == "fix" then Some(FIXED)
    else if kind == "perf" || kind == "refactor" || kind == "revert" then Some(CHANGED)
    else None
  }

  /** `entry` */
  function EntryOf(subject: string, u: Unicode): (r: Option<Entry>)
    ensures r.Some? ==> r.value.group < |GROUPS|
  {
    var found := Parse(subject);
    if found.None? then Some(Entry(CHANGED, Unnumbered(subject, u)))
    else
      var m := found.value;
      var plain := Unnumbered(m.text, u);
      var text := if plain == "" then "" else u.upper(plain[0]) + plain[1..];
      if m.scope == Some("security") then Some(Entry(SECURITY, text))
      else if ShownGroup(m.kind).Some? then Some(Entry(ShownGroup(m.kind).value, text))
      else if m.kind in HIDDEN && !m.breaking then None
      else Some(Entry(CHANGED, text))
  }

  /** Testers miss exactly the subjects of a hidden type that neither break anything nor concern
      security. */
  lemma HiddenExactly(s: string, u: Unicode)
    ensures EntryOf(s, u).None? <==>
      exists m :: Writes(m, s) && m.kind in HIDDEN && !m.breaking && m.scope != Some("security")
  {
    hide Parse;
    hide Writes;
    hide Unnumbered;
    var found := Parse(s);
    if found.Some? { ParseIsWritten(s, found.value); }
    forall m | Writes(m, s) ensures found == Some(m) { ParseIsWritten(s, m); }
    assert forall kind :: kind in HIDDEN ==> ShownGroup(kind).None?;
  }

  // What an entry says.

  ghost predicate AllDigits(s: string, u: Unicode) { forall i :: 0 <= i < |s| ==> u.digit(s[i]) }

  /** `s` is `name` and a pull request's number after it. */
  ghost predicate Numbered(s: string, name: string, gap: string, digits: string, u: Unicode) {
    && s == name + gap + "(#" + digits + ")" && AllSpace(gap) && (name != "" ==> !Space(name[|name| - 1]))
    && digits != "" && AllDigits(digits, u)
  }

  lemma {:induction false} DigitsBackAre(s: string, i: nat, n: nat, u: Unicode)
    requires n <= i <= |s| && (forall j :: n <= j < i ==> u.digit(s[j])) && (n > 0 ==> !u.digit(s[n - 1]))
    ensures DigitsBack(s, i, u) == n
    decreases i
  {
    if n < i { DigitsBackAre(s, i - 1, n, u); }
  }

  lemma {:induction false} DigitsBackMean(s: string, i: nat, u: Unicode)
    requires i <= |s|
    ensures forall j :: DigitsBack(s, i, u) <= j < i ==> u.digit(s[j])
    decreases i
  {
    if i > 0 && u.digit(s[i - 1]) { DigitsBackMean(s, i - 1, u); }
  }

  lemma {:induction false} RStripGap(name: string, gap: string)
    requires AllSpace(gap) && (name != "" ==> !Space(name[|name| - 1]))
    ensures RStrip(name + gap) == name
  {
    if gap == "" {
      assert name + gap == name;
    } else {
      var n := |gap| - 1;
      RStripGap(name, gap[..n]);
      assert (name + gap)[..|name| + n] == name + gap[..n];
    }
  }

  /** A number at the end goes, with the space before it. */
  lemma NumberGoes(s: string, name: string, gap: string, digits: string, u: Unicode)
    requires Numbered(s, name, gap, digits, u) && !u.digit('#')
    ensures Bare(s, u) == name
  {
    var before := name + gap;
    var n := |before| + 2;
    assert s == before + "(#" + digits + ")";
    RStripGap(name, gap);
    NumberPlaces(s, before, digits);
    DigitsPlaced(s, n, digits, u);
    hide Numbered;
    hide AllDigits;
    BareOf(s, n, before, u);
  }

  lemma DigitsPlaced(s: string, n: nat, digits: string, u: Unicode)
    requires AllDigits(digits, u) && 0 < n <= |s| - 1 == n + |digits| && !u.digit(s[n - 1])
    requires forall j :: n <= j < |s| - 1 ==> s[j] == digits[j - n]
    ensures DigitsBack(s, |s| - 1, u) == n
  {
    DigitsBackAre(s, |s| - 1, n, u);
  }

  lemma BareOf(s: string, n: nat, before: string, u: Unicode)
    requires 2 <= n < |s| - 1 && DigitsBack(s, |s| - 1, u) == n
    requires s[|s| - 1] == ')' && s[n - 2..n] == "(#" && s[..n - 2] == before
    ensures Bare(s, u) == RStrip(before)
  {
    hide DigitsBack;
    hide RStrip;
  }

  lemma NumberPlaces(s: string, before: string, digits: string)
    requires s == before + "(#" + digits + ")"
    ensures var n := |before| + 2;
      && |s| == n + |digits| + 1 && s[|s| - 1] == ')' && s[n - 1] == '#' && s[n - 2..n] == "(#" && s[..n - 2] == before
      && forall j :: n <= j < |s| - 1 ==> s[j] == digits[j - n]
  {}

  ghost predicate HasNumber(s: string, u: Unicode) {
    exists name, gap, digits :: Numbered(s, name, gap, digits, u)
  }

  /** Nothing else does. */
  lemma OthersStay(s: string, u: Unicode)
    requires Bare(s, u) != s
    ensures HasNumber(s, u)
  {
    var n := BareChanges(s, u);
    hide Bare;
    DigitsBackMean(s, |s| - 1, u);
    hide DigitsBack;
    DigitsSlice(s, n, u);
    EndsInNumber(s, n);
    hide AllDigits;
    hide HasNumber;
    SplitGap(s, s[..n - 2], s[n..|s| - 1], u);
  }

  lemma DigitsSlice(s: string, n: nat, u: Unicode)
    requires n < |s| && forall j :: n <= j < |s| - 1 ==> u.digit(s[j])
    ensures AllDigits(s[n..|s| - 1], u)
  {
    var digits := s[n..|s| - 1];
    assert forall i :: 0 <= i < |digits| ==> digits[i] == s[n + i];
  }

  lemma BareChanges(s: string, u: Unicode) returns (n: nat)
    requires Bare(s, u) != s
    ensures s != "" && n == DigitsBack(s, |s| - 1, u) && 2 <= n < |s| - 1 && s[|s| - 1] == ')' && s[n - 2..n] == "(#"
  {
    n := DigitsBack(s, |s| - 1, u);
  }

  lemma EndsInNumber(s: string, n: nat)
    requires 2 <= n < |s| - 1 && s[|s| - 1] == ')' && s[n - 2..n] == "(#"
    ensures s == s[..n - 2] + "(#" + s[n..|s| - 1] + ")"
  {
    assert s == s[..n - 2] + s[n - 2..n] + s[n..|s| - 1] + s[|s| - 1..];
  }

  lemma SplitGap(s: string, before: string, digits: string, u: Unicode)
    requires s == before + "(#" + digits + ")" && digits != "" && AllDigits(digits, u)
    ensures HasNumber(s, u)
  {
    RStripIs(before);
    var m := |RStrip(before)|;
    assert before == before[..m] + before[m..];
    assert Numbered(s, before[..m], before[m..], digits, u);
  }

  function Capital(text: string, u: Unicode): string { if text == "" then "" else u.upper(text[0]) + text[1..] }

  /** The group a visible subject's entry is listed in. */
  ghost predicate Belongs(m: Subject, group: nat) {
    if m.scope == Some("security") then group == SECURITY
    else if m.kind == "feat" then group == ADDED
    else if m.kind == "fix" then group == FIXED
    else group == CHANGED
  }

  /** A visible subject is listed in its group with its text, capital and without a pull request's
      number; one that is not conventional is a change as it stands. */
  lemma EntryIs(s: string, u: Unicode)
    requires EntryOf(s, u).Some?
    ensures forall m :: Writes(m, s) ==>
      Belongs(m, EntryOf(s, u).value.group) && EntryOf(s, u).value.text == Capital(Bare(m.text, u), u)
    ensures (forall m :: !Writes(m, s)) && OneLine(s) ==> EntryOf(s, u).value == Entry(CHANGED, Bare(s, u))
  {
    hide Parse;
    hide Writes;
    hide Bare;
    var found := Parse(s);
    if found.Some? {
      ParseIsWritten(s, found.value);
      LineStays(found.value.text, u);
    }
    if OneLine(s) { LineStays(s, u); }
    forall m | Writes(m, s) ensures found == Some(m) { ParseIsWritten(s, m); }
  }

  lemma LineStays(s: string, u: Unicode)
    requires OneLine(s)
    ensures Unnumbered(s, u) == Bare(s, u)
  {
    assert s != "" ==> s[|s| - 1] in s;
    assert Bare(s, u) + "" == Bare(s, u);
  }

  // ----- the distinct entries testers see

  function Visible(subjects: seq<string>, u: Unicode): (r: seq<Entry>)
    ensures forall e :: e in r ==> e.group < |GROUPS|
  {
    if subjects == [] then []
    else
      var seen := Visible(subjects[..|subjects| - 1], u);
      var found := EntryOf(subjects[|subjects| - 1], u);
      if found.Some? && found.value !in seen then seen + [found.value] else seen
  }

  ghost predicate Distinct(entries: seq<Entry>) { forall i, j :: 0 <= i < j < |entries| ==> entries[i] != entries[j] }

  ghost predicate Gives(subjects: seq<string>, e: Entry, u: Unicode) {
    exists i :: 0 <= i < |subjects| && EntryOf(subjects[i], u) == Some(e)
  }

  lemma GivesSnoc(subjects: seq<string>, e: Entry, u: Unicode)
    requires subjects != []
    ensures var n := |subjects| - 1;
      Gives(subjects, e, u) <==> Gives(subjects[..n], e, u) || EntryOf(subjects[n], u) == Some(e)
  {
    hide EntryOf;
    var n := |subjects| - 1;
    assert forall i :: 0 <= i < n ==> subjects[..n][i] == subjects[i];
    if Gives(subjects[..n], e, u) {
      var i :| 0 <= i < n && EntryOf(subjects[..n][i], u) == Some(e);
      assert EntryOf(subjects[i], u) == Some(e);
    }
  }

  /** They are the entries of the subjects, each once. */
  lemma {:induction false} VisibleIsDistinct(subjects: seq<string>, u: Unicode)
    ensures forall e :: e in Visible(subjects, u) <==> Gives(subjects, e, u)
    ensures Distinct(Visible(subjects, u))
  {
    hide EntryOf;
    if subjects != [] {
      hide Gives;
      var n := |subjects| - 1;
      VisibleIsDistinct(subjects[..n], u);
      var seen := Visible(subjects[..n], u);
      forall i | 0 <= i < |seen| ensures seen[i] in seen {}
      forall e ensures e in Visible(subjects, u) <==> Gives(subjects, e, u) { GivesSnoc(subjects, e, u); }
    }
  }

  function InGroup(entries: seq<Entry>, g: nat): seq<string> {
    if entries == [] then []
    else
      var n := |entries| - 1;
      InGroup(entries[..n], g) + if entries[n].group == g then [entries[n].text] else []
  }

  // ----- text

  function Decimal(n: nat): (r: string)
    ensures OneLine(r)
  {
    var last := [('0' as int + n % 10) as char];
    if n < 10 then last else Decimal(n / 10) + last
  }

  function Section(name: string, texts: seq<string>): string {
    if texts == [] then name
    else Section(name, texts[..|texts| - 1]) + "\n" + ("- " + texts[|texts| - 1])
  }

  type Groups = g: seq<seq<string>> | |g| == 4 witness [[], [], [], []]

  function Sections(groups: Groups, n: nat): seq<string>
    requires n <= 4
  {
    if n == 0 then []
    else Sections(groups, n - 1) + if groups[n - 1] == [] then [] else [Section(GROUPS[n - 1], groups[n - 1])]
  }

  function Joined(parts: seq<string>): string
    requires parts != []
  {
    if |parts| == 1 then parts[0] else Joined(parts[..|parts| - 1]) + "\n\n" + parts[|parts| - 1]
  }

  const NOTHING := "No changes for testers since the last build."

  function Parts(groups: Groups, omitted: nat): seq<string> {
    var sections := Sections(groups, 4) + if omitted > 0 then ["And " + Decimal(omitted) + " more."] else [];
    if sections == [] then [NOTHING] else sections
  }

  function Short(source: string): string { if |source| <= SHA_LENGTH then source else source[..SHA_LENGTH] }

  function Render(groups: Groups, omitted: nat, source: string): string {
    Joined(Parts(groups, omitted) + ["Source: " + Short(source)])
  }

  // ----- reading back

  function Lines(s: string): (r: seq<string>)
    ensures |r| > 0
  {
    if s == "" then [""]
    else
      var before := Lines(s[..|s| - 1]);
      var last := s[|s| - 1];
      if last == '\n' then before + [""] else before[|before| - 1 := before[|before| - 1] + [last]]
  }

  predicate Hex(s: string) { forall c :: c in s ==> '0' <= c <= '9' || 'a' <= c <= 'f' }

  function SourceLine(line: string): Option<string> {
    if StartsWith(line, "Source: ") && 7 <= |line| - 8 <= 40 && Hex(line[8..]) then Some(line[8..]) else None
  }

  /** The first line that names a source. */
  function FirstSource(lines: seq<string>): Option<string> {
    if lines == [] then None
    else
      var r := FirstSource(lines[..|lines| - 1]);
      if r.Some? then r else SourceLine(lines[|lines| - 1])
  }

  function SourceIn(text: string): Option<string> { FirstSource(Lines(text)) }

  function Named(notes: Option<string>): Option<string> { SourceIn(if notes.None? then "" else notes.value) }

  /** `recorded_source`: the notes of each locale, some without any. */
  method RecordedSource(notes: seq<Option<string>>) returns (r: Option<string>)
    ensures r.None? <==> forall i :: 0 <= i < |notes| ==> Named(notes[i]).None?
    ensures r.Some? ==> exists i ::
      0 <= i < |notes| && r == Named(notes[i]) && forall j :: 0 <= j < i ==> Named(notes[j]).None?
  {
    for i := 0 to |notes|
      invariant forall j :: 0 <= j < i ==> Named(notes[j]).None?
    {
      var found := SourceIn(if notes[i].None? then "" else notes[i].value);
      if found.Some? { return found; }
    }
    r := None;
  }

  /** The text's lines with one more character at the end. */
  function Grow(lines: seq<string>, c: char): seq<string>
    requires lines != []
  {
    if c == '\n' then lines + [""] else lines[|lines| - 1 := lines[|lines| - 1] + [c]]
  }

  lemma LinesSnoc(s: string, c: char)
    ensures Lines(s + [c]) == Grow(Lines(s), c)
  {
    assert (s + [c])[..|s|] == s;
  }

  lemma GrowLast(a: seq<string>, b: seq<string>, c: char)
    requires b != []
    ensures Grow(a + b, c) == a + Grow(b, c)
  {}

  lemma {:induction false} LinesJoin(a: string, b: string)
    ensures Lines(a + "\n" + b) == Lines(a) + Lines(b)
  {
    hide Lines;
    if b == "" {
      LinesSnoc(a, '\n');
      assert a + "\n" + b == a + ['\n'];
      NoLines();
    } else {
      hide Grow;
      var n := |b| - 1;
      LinesJoin(a, b[..n]);
      assert a + "\n" + b == a + "\n" + b[..n] + [b[n]] && b == b[..n] + [b[n]];
      LinesSnoc(a + "\n" + b[..n], b[n]);
      LinesSnoc(b[..n], b[n]);
      GrowLast(Lines(a), Lines(b[..n]), b[n]);
    }
  }

  lemma NoLines()
    ensures Lines("") == [""]
  {}

  lemma {:induction false} OneLineIs(s: string)
    requires OneLine(s)
    ensures Lines(s) == [s]
  {
    if s != "" {
      OneLineIs(s[..|s| - 1]);
      assert s == s[..|s| - 1] + [s[|s| - 1]];
    }
  }

  lemma {:induction false} FirstSourceConcat(a: seq<string>, b: seq<string>)
    ensures FirstSource(a + b) == if FirstSource(a).Some? then FirstSource(a) else FirstSource(b)
  {
    hide SourceLine;
    if b == [] {
      assert a + b == a;
    } else {
      var n := |b| - 1;
      FirstSourceConcat(a, b[..n]);
      assert (a + b)[..|a| + n] == a + b[..n];
    }
  }

  lemma SourceJoin(a: string, b: string)
    ensures SourceIn(a + "\n" + b) == if SourceIn(a).Some? then SourceIn(a) else SourceIn(b)
  {
    LinesJoin(a, b);
    FirstSourceConcat(Lines(a), Lines(b));
  }

  lemma OneLineSource(s: string)
    requires OneLine(s)
    ensures SourceIn(s) == SourceLine(s)
  {
    OneLineIs(s);
    FirstSourceConcat([], [s]);
    assert [] + [s] == [s] && [s][..0] == [];
  }

  ghost predicate AllOneLine(texts: seq<string>) { forall i :: 0 <= i < |texts| ==> OneLine(texts[i]) }

  lemma {:induction false} SectionNamesNone(name: string, texts: seq<string>)
    requires OneLine(name) && SourceLine(name).None? && AllOneLine(texts)
    ensures SourceIn(Section(name, texts)).None?
  {
    hide SourceIn;
    if texts == [] {
      OneLineSource(name);
    } else {
      var n := |texts| - 1;
      SectionNamesNone(name, texts[..n]);
      var line := "- " + texts[n];
      OneLineSource(line);
      assert line[0] == '-' && SourceLine(line).None?;
      SourceJoin(Section(name, texts[..n]), line);
    }
  }

  lemma {:induction false} JoinedSource(parts: seq<string>, last: string)
    requires parts != [] && forall i :: 0 <= i < |parts| ==> SourceIn(parts[i]).None?
    ensures SourceIn(Joined(parts)).None?
    ensures SourceIn(Joined(parts + [last])) == SourceIn(last)
  {
    hide SourceIn;
    var n := |parts| - 1;
    if n > 0 { JoinedSource(parts[..n], parts[n]); assert parts[..n] + [parts[n]] == parts; }
    assert SourceIn(Joined(parts)).None?;
    assert (parts + [last])[..|parts|] == parts;
    TwoBreaks(Joined(parts), last);
  }

  lemma TwoBreaks(a: string, b: string)
    ensures SourceIn(a + "\n\n" + b) == if SourceIn(a).Some? then SourceIn(a) else SourceIn(b)
  {
    hide SourceIn;
    assert "" + "\n" + b == "\n" + b;
    SourceJoin("", b);
    OneLineSource("");
    SourceJoin(a, "\n" + b);
    assert a + "\n\n" + b == a + "\n" + ("\n" + b);
  }

  ghost predicate GroupsOneLine(groups: Groups) { forall g :: 0 <= g < 4 ==> AllOneLine(groups[g]) }

  lemma {:induction false} SectionsNameNone(groups: Groups, n: nat)
    requires n <= 4 && GroupsOneLine(groups)
    ensures forall i :: 0 <= i < |Sections(groups, n)| ==> SourceIn(Sections(groups, n)[i]).None?
  {
    hide SourceIn;
    if n > 0 {
      SectionsNameNone(groups, n - 1);
      assert OneLine(GROUPS[n - 1]) && SourceLine(GROUPS[n - 1]).None?;
      SectionNamesNone(GROUPS[n - 1], groups[n - 1]);
    }
  }

  // What the notes list can be read back from their lines.

  /** The heading last read, and each item with the heading it stands under. */
  datatype Reading = Reading(heading: string, found: seq<(string, string)>)

  function ReadLine(r: Reading, line: string): Reading {
    if StartsWith(line, "- ") then r.(found := r.found + [(r.heading, line[2..])]) else r.(heading := line)
  }

  function Read(r: Reading, lines: seq<string>): Reading {
    if lines == [] then r else ReadLine(Read(r, lines[..|lines| - 1]), lines[|lines| - 1])
  }

  function Items(name: string, texts: seq<string>): seq<(string, string)> {
    if texts == [] then [] else Items(name, texts[..|texts| - 1]) + [(name, texts[|texts| - 1])]
  }

  /** Everything listed in the first `n` groups, each under its heading. */
  function Listing(groups: Groups, n: nat): seq<(string, string)>
    requires n <= 4
  {
    if n == 0 then [] else Listing(groups, n - 1) + Items(GROUPS[n - 1], groups[n - 1])
  }

  lemma {:induction false} ReadConcat(r: Reading, a: seq<string>, b: seq<string>)
    ensures Read(r, a + b) == Read(Read(r, a), b)
  {
    hide ReadLine;
    if b == [] {
      assert a + b == a;
    } else {
      var n := |b| - 1;
      ReadConcat(r, a, b[..n]);
      assert (a + b)[..|a| + n] == a + b[..n];
    }
  }

  lemma ReadOne(r: Reading, line: string)
    ensures Read(r, [line]) == ReadLine(r, line)
  {
    assert [line][..0] == [];
  }

  /** Whatever stood before, the part lists exactly `items`. */
  ghost predicate Says(part: string, items: seq<(string, string)>) {
    forall r :: Read(r, Lines(part)).found == r.found + items
  }

  lemma {:induction false} SectionReads(r: Reading, name: string, texts: seq<string>)
    requires OneLine(name) && !StartsWith(name, "- ") && AllOneLine(texts)
    ensures Read(r, Lines(Section(name, texts))) == Reading(name, r.found + Items(name, texts))
  {
    hide Lines;
    if texts == [] {
      OneLineIs(name);
      ReadOne(r, name);
      assert r.found + [] == r.found;
    } else {
      var n := |texts| - 1;
      var line := "- " + texts[n];
      SectionReads(r, name, texts[..n]);
      LinesJoin(Section(name, texts[..n]), line);
      assert OneLine(line);
      OneLineIs(line);
      ReadConcat(r, Lines(Section(name, texts[..n])), [line]);
      hide Read;
      var before := Reading(name, r.found + Items(name, texts[..n]));
      ReadOne(before, line);
      assert line[2..] == texts[n] && StartsWith(line, "- ");
      assert r.found + Items(name, texts[..n]) + [(name, texts[n])] == r.found + Items(name, texts);
    }
  }

  lemma SectionSays(name: string, texts: seq<string>)
    requires OneLine(name) && !StartsWith(name, "- ") && AllOneLine(texts)
    ensures Says(Section(name, texts), Items(name, texts))
  {
    hide Read;
    hide Lines;
    forall r ensures Read(r, Lines(Section(name, texts))).found == r.found + Items(name, texts) {
      SectionReads(r, name, texts);
    }
  }

  lemma LineSays(line: string)
    requires OneLine(line) && !StartsWith(line, "- ")
    ensures Says(line, [])
  {
    OneLineIs(line);
    hide Read;
    hide Lines;
    forall r ensures Read(r, Lines(line)).found == r.found + [] { ReadOne(r, line); }
  }

  lemma TwoBreaksSay(a: string, b: string, x: seq<(string, string)>, y: seq<(string, string)>)
    requires Says(a, x) && Says(b, y)
    ensures Says(a + "\n\n" + b, x + y)
  {
    hide Read;
    hide Lines;
    assert a + "\n\n" + b == a + "\n" + ("" + "\n" + b);
    LinesJoin(a, "" + "\n" + b);
    LinesJoin("", b);
    NoLines();
    forall r ensures Read(r, Lines(a + "\n\n" + b)).found == r.found + (x + y) {
      ReadConcat(r, Lines(a), [""] + Lines(b));
      var after := Read(r, Lines(a));
      ReadConcat(after, [""], Lines(b));
      ReadOne(after, "");
      assert r.found + x + y == r.found + (x + y);
    }
  }

  function AllItems(items: seq<seq<(string, string)>>): seq<(string, string)> {
    if items == [] then [] else AllItems(items[..|items| - 1]) + items[|items| - 1]
  }

  lemma {:induction false} JoinedSays(parts: seq<string>, items: seq<seq<(string, string)>>)
    requires |parts| == |items| > 0 && forall i :: 0 <= i < |parts| ==> Says(parts[i], items[i])
    ensures Says(Joined(parts), AllItems(items))
  {
    hide Says;
    var n := |parts| - 1;
    if n == 0 {
      assert items[..0] == [] && AllItems(items) == [] + items[0] && [] + items[0] == items[0];
    } else {
      JoinedSays(parts[..n], items[..n]);
      TwoBreaksSay(Joined(parts[..n]), parts[n], AllItems(items[..n]), items[n]);
    }
  }

  lemma {:induction false} SectionsSay(groups: Groups, n: nat) returns (items: seq<seq<(string, string)>>)
    requires n <= 4 && GroupsOneLine(groups)
    ensures |items| == |Sections(groups, n)| && AllItems(items) == Listing(groups, n)
    ensures forall i :: 0 <= i < |items| ==> Says(Sections(groups, n)[i], items[i])
  {
    hide Says;
    items := [];
    if n > 0 {
      var name, texts := GROUPS[n - 1], groups[n - 1];
      items := SectionsSay(groups, n - 1);
      if texts != [] {
        assert OneLine(name) && name != "" && name[0] != '-';
        NoItem(name);
        SectionSays(name, texts);
        assert (items + [Items(name, texts)])[..|items|] == items;
        items := items + [Items(name, texts)];
      } else {
        assert Listing(groups, n - 1) + [] == Listing(groups, n - 1);
      }
    }
  }

  /** For one-line entries the notes list every entry that was not cut, under its group's heading, in
      order, and nothing else. */
  lemma NotesListAll(groups: Groups, omitted: nat, source: string)
    requires GroupsOneLine(groups) && OneLine(source)
    ensures Read(Reading("", []), Lines(Render(groups, omitted, source))).found == Listing(groups, 4)
  {
    hide Says;
    hide Joined;
    hide Sections;
    hide Decimal;
    hide Listing;
    var items := SectionsSay(groups, 4);
    var last := "Source: " + Short(source);
    OtherLinesSay(omitted, source);
    var parts := Parts(groups, omitted) + [last];
    var rest: seq<seq<(string, string)>> := seq(|parts| - |items|, i => []);
    JoinedSays(parts, items + rest);
    RestIsEmpty(items, rest);
    ReadSays(Render(groups, omitted, source), Listing(groups, 4));
  }

  lemma NoItem(line: string)
    requires line != "" && line[0] != '-'
    ensures !StartsWith(line, "- ")
  {
    assert "- "[0] == '-';
  }

  lemma OtherLinesSay(omitted: nat, source: string)
    requires OneLine(source)
    ensures Says("And " + Decimal(omitted) + " more.", []) && Says("Source: " + Short(source), []) && Says(NOTHING, [])
  {
    hide Says;
    hide Decimal;
    var more, last := "And " + Decimal(omitted) + " more.", "Source: " + Short(source);
    assert forall c :: c in Short(source) ==> c in source;
    assert more[0] == 'A' && last[0] == 'S' && NOTHING[0] == 'N';
    assert forall i :: 0 <= i < |NOTHING| ==> NOTHING[i] != '\n';
    NoItem(more);
    NoItem(last);
    NoItem(NOTHING);
    LineSays(more);
    LineSays(last);
    LineSays(NOTHING);
  }

  lemma {:induction false} RestIsEmpty(items: seq<seq<(string, string)>>, rest: seq<seq<(string, string)>>)
    requires forall i :: 0 <= i < |rest| ==> rest[i] == []
    ensures AllItems(items + rest) == AllItems(items)
  {
    if rest == [] {
      assert items + rest == items;
    } else {
      var n := |rest| - 1;
      RestIsEmpty(items, rest[..n]);
      assert (items + rest)[..|items| + n] == items + rest[..n];
    }
  }

  function ValueOf(s: string): nat
    requires forall i :: 0 <= i < |s| ==> '0' <= s[i] <= '9'
  {
    if s == "" then 0 else ValueOf(s[..|s| - 1]) * 10 + (s[|s| - 1] as int - '0' as int)
  }

  lemma {:induction false} DecimalIs(n: nat)
    ensures var s := Decimal(n); s != "" && (forall i :: 0 <= i < |s| ==> '0' <= s[i] <= '9') && ValueOf(s) == n
  {
    var last := [('0' as int + n % 10) as char];
    if n < 10 {
      assert ValueOf(last) == ValueOf("") * 10 + n;
    } else {
      DecimalIs(n / 10);
      assert Decimal(n)[..|Decimal(n)| - 1] == Decimal(n / 10);
    }
  }

  lemma {:induction false} JoinedHas(parts: seq<string>, i: nat)
    requires i < |parts| && OneLine(parts[i])
    ensures parts[i] in Lines(Joined(parts))
  {
    var n := |parts| - 1;
    OneLineIs(parts[i]);
    if n > 0 {
      var before := Joined(parts[..n]);
      assert before + "\n\n" + parts[n] == before + "\n" + ("" + "\n" + parts[n]);
      hide Lines;
      LinesJoin(before, "" + "\n" + parts[n]);
      LinesJoin("", parts[n]);
      if i < n { JoinedHas(parts[..n], i); }
    }
  }

  /** How many entries were left out is said, when any were, and so is it when there are none at all. */
  lemma NotesSayTheRest(groups: Groups, omitted: nat, source: string)
    ensures omitted > 0 ==> "And " + Decimal(omitted) + " more." in Lines(Render(groups, omitted, source))
    ensures omitted == 0 && Total(groups) == 0 ==> NOTHING in Lines(Render(groups, omitted, source))
  {
    hide Decimal;
    hide Lines;
    hide Joined;
    hide Sections;
    hide Short;
    var sections, last := Sections(groups, 4), "Source: " + Short(source);
    if omitted > 0 {
      var more := "And " + Decimal(omitted) + " more.";
      assert Parts(groups, omitted) == sections + [more];
      PartIsLine(sections, more, [last]);
    } else if Total(groups) == 0 {
      NoSections(groups);
      assert forall i :: 0 <= i < |NOTHING| ==> NOTHING[i] != '\n';
      assert Parts(groups, omitted) == [] + [NOTHING];
      PartIsLine([], NOTHING, [last]);
    }
  }

  lemma PartIsLine(before: seq<string>, part: string, after: seq<string>)
    requires OneLine(part)
    ensures part in Lines(Joined(before + [part] + after))
  {
    var parts := before + [part] + after;
    assert parts[|before|] == part;
    JoinedHas(parts, |before|);
  }

  lemma NoSections(groups: Groups)
    requires Total(groups) == 0
    ensures Sections(groups, 4) == []
  {
    assert forall g :: 0 <= g < 4 ==> groups[g] == [];
    NoneUpTo(groups, 4);
  }

  lemma {:induction false} NoneUpTo(groups: Groups, n: nat)
    requires n <= 4 && forall g :: 0 <= g < n ==> groups[g] == []
    ensures Sections(groups, n) == []
  {
    if n > 0 { NoneUpTo(groups, n - 1); }
  }

  lemma ReadSays(part: string, items: seq<(string, string)>)
    requires Says(part, items)
    ensures Read(Reading("", []), Lines(part)).found == items
  {
    assert [] + items == items;
  }

  /** Whatever the entries say, the notes name the source on their last line and nowhere before. */
  lemma RenderedSource(groups: Groups, omitted: nat, source: string)
    requires GroupsOneLine(groups) && Hex(source) && |source| >= 7
    ensures SourceIn(Render(groups, omitted, source)) == Some(Short(source))
  {
    hide SourceIn;
    hide Sections;
    hide Joined;
    hide Decimal;
    SectionsNameNone(groups, 4);
    OtherPartsNameNone(omitted);
    var line := "Source: " + Short(source);
    SourceLineIs(source);
    var sections := Sections(groups, 4) + if omitted > 0 then ["And " + Decimal(omitted) + " more."] else [];
    assert forall i :: 0 <= i < |sections| ==> SourceIn(sections[i]).None?;
    JoinedSource(Parts(groups, omitted), line);
  }

  lemma OtherPartsNameNone(omitted: nat)
    ensures SourceIn("And " + Decimal(omitted) + " more.").None? && SourceIn(NOTHING).None?
  {
    hide SourceIn;
    hide Decimal;
    var more := "And " + Decimal(omitted) + " more.";
    assert more[0] == 'A' && OneLine(more);
    AnotherLetter(more);
    assert NOTHING[0] == 'N';
    assert forall i :: 0 <= i < |NOTHING| ==> NOTHING[i] != '\n';
    AnotherLetter(NOTHING);
  }

  lemma AnotherLetter(s: string)
    requires OneLine(s) && s != "" && s[0] != 'S'
    ensures SourceIn(s).None?
  {
    hide SourceIn;
    OneLineSource(s);
  }

  lemma SourceLineIs(source: string)
    requires Hex(source) && |source| >= 7
    ensures SourceIn("Source: " + Short(source)) == Some(Short(source))
  {
    hide SourceIn;
    var line := "Source: " + Short(source);
    assert forall c :: c in Short(source) ==> c in source;
    assert OneLine(line);
    OneLineSource(line);
    assert line[8..] == Short(source) && line[..8] == "Source: ";
  }

  // ----- composing

  function Total(groups: Groups): nat { |groups[0]| + |groups[1]| + |groups[2]| + |groups[3]| }

  function Grouped(entries: seq<Entry>): Groups {
    [InGroup(entries, 0), InGroup(entries, 1), InGroup(entries, 2), InGroup(entries, 3)]
  }

  lemma {:induction false} GroupedTotal(entries: seq<Entry>)
    requires forall e :: e in entries ==> e.group < |GROUPS|
    ensures Total(Grouped(entries)) == |entries|
  {
    if entries != [] {
      assert entries[|entries| - 1] in entries;
      GroupedTotal(entries[..|entries| - 1]);
    }
  }

  function LastGroup(groups: Groups): (g: nat)
    requires Total(groups) > 0
    ensures g < 4 && groups[g] != [] && forall h :: g < h < 4 ==> groups[h] == []
  {
    if groups[3] != [] then 3 else if groups[2] != [] then 2 else if groups[1] != [] then 1 else 0
  }

  /** What is listed of what there is: each group a prefix, newest first, and cut only once every
      later group is empty. */
  ghost predicate Cut(listed: Groups, all: Groups) {
    && (forall g :: 0 <= g < 4 ==> listed[g] <= all[g])
    && (forall g, h :: 0 <= g < h < 4 && listed[g] != all[g] ==> listed[h] == [])
  }

  /** The same with the entry cut last put back. */
  ghost predicate Restored(listed: Groups, more: Groups, all: Groups) {
    Cut(more, all) && Total(more) == Total(listed) + 1 && forall g :: 0 <= g < 4 ==> listed[g] <= more[g]
  }

  method Group(subjects: seq<string>, u: Unicode) returns (groups: Groups)
    ensures groups == Grouped(Visible(subjects, u))
  {
    hide EntryOf;
    groups := [[], [], [], []];
    var seen: set<Entry> := {};
    for i := 0 to |subjects|
      invariant groups == Grouped(Visible(subjects[..i], u))
      invariant forall e :: e in seen <==> e in Visible(subjects[..i], u)
    {
      assert subjects[..i + 1][..i] == subjects[..i];
      var found := EntryOf(subjects[i], u);
      if found.Some? && found.value !in seen {
        GroupedSnoc(Visible(subjects[..i], u), found.value);
        seen := seen + {found.value};
        groups := groups[found.value.group := groups[found.value.group] + [found.value.text]];
      }
    }
    assert subjects[..|subjects|] == subjects;
  }

  lemma GroupedSnoc(entries: seq<Entry>, e: Entry)
    requires e.group < |GROUPS|
    ensures var groups := Grouped(entries);
      Grouped(entries + [e]) == groups[e.group := groups[e.group] + [e.text]]
  {
    var more := entries + [e];
    assert more[..|entries|] == entries;
    assert forall g :: InGroup(more, g) == InGroup(entries, g) + if g == e.group then [e.text] else [];
    assert forall g :: InGroup(entries, g) + [] == InGroup(entries, g);
    assert e.group == 0 || e.group == 1 || e.group == 2 || e.group == 3;
  }

  lemma NothingCut(all: Groups)
    ensures Cut(all, all)
  {}

  lemma PopCuts(listed: Groups, all: Groups)
    requires Cut(listed, all) && Total(listed) > 0
    ensures var g := LastGroup(listed);
      var less := listed[g := listed[g][..|listed[g]| - 1]];
      Cut(less, all) && Total(less) == Total(listed) - 1 && Restored(less, listed, all)
  {
    var g := LastGroup(listed);
    var less := listed[g := listed[g][..|listed[g]| - 1]];
    assert less[g] <= listed[g] && forall h :: 0 <= h < 4 && h != g ==> less[h] == listed[h];
    forall h | 0 <= h < 4 ensures less[h] <= all[h] { assert listed[h] <= all[h]; }
    assert forall h :: g < h < 4 ==> less[h] == [];
    assert g == 0 || g == 1 || g == 2 || g == 3;
  }

  /** Subjects of one line, as commits have, and a hexadecimal source. */
  ghost predicate ReadsBack(subjects: seq<string>, source: string, u: Unicode) {
    AllOneLine(subjects) && (forall c :: c != '\n' ==> OneLine(u.upper(c))) && Hex(source) && |source| >= 7
  }

  /** The notes list as many of the distinct visible entries as fit, and count the rest; they fit
      the limit or list nothing, and with one more entry they would not have fit. */
  method Compose(subjects: seq<string>, source: string, limit: nat, u: Unicode)
    returns (notes: string, ghost listed: Groups, ghost omitted: nat)
    ensures notes == Render(listed, omitted, source)
    ensures Cut(listed, Grouped(Visible(subjects, u)))
    ensures Total(listed) + omitted == |Visible(subjects, u)|
    ensures |notes| <= limit || Total(listed) == 0
    ensures omitted > 0 ==> exists more :: Restored(listed, more, Grouped(Visible(subjects, u)))
                                           && |Render(more, omitted - 1, source)| > limit
    ensures ReadsBack(subjects, source, u) ==> SourceIn(notes) == Some(Short(source))
  {
    hide Render;
    hide Cut;
    hide Restored;
    hide Total;
    hide Grouped;
    hide Visible;
    hide ReadsBack;
    hide SourceIn;
    var groups := Group(subjects, u);
    ghost var all := groups;
    GroupedTotal(Visible(subjects, u));
    NothingCut(all);
    var left := 0;
    notes := Render(groups, left, source);
    while |notes| > limit && Total(groups) > 0
      invariant 0 <= left && Cut(groups, all) && Total(groups) + left == Total(all)
      invariant notes == Render(groups, left, source)
      invariant left > 0 ==> exists more :: Restored(groups, more, all) && |Render(more, left - 1, source)| > limit
      decreases Total(groups)
    {
      PopCuts(groups, all);
      var last := LastGroup(groups);
      ghost var more := groups;
      groups := groups[last := groups[last][..|groups[last]| - 1]];
      left := left + 1;
      assert Restored(groups, more, all) && |Render(more, left - 1, source)| > limit;
      notes := Render(groups, left, source);
    }
    listed, omitted := groups, left;
    if ReadsBack(subjects, source, u) { NotesReadBack(subjects, source, u, groups, left); }
  }

  // ----- the round trip

  lemma EntryIsOneLine(subject: string, u: Unicode)
    requires OneLine(subject) && EntryOf(subject, u).Some? && forall c :: c != '\n' ==> OneLine(u.upper(c))
    ensures OneLine(EntryOf(subject, u).value.text)
  {
    hide Unnumbered;
    hide Parse;
  }

  lemma {:induction false} VisibleOneLine(subjects: seq<string>, u: Unicode)
    requires AllOneLine(subjects) && forall c :: c != '\n' ==> OneLine(u.upper(c))
    ensures forall e :: e in Visible(subjects, u) ==> OneLine(e.text)
  {
    hide EntryOf;
    if subjects != [] {
      var n := |subjects| - 1;
      VisibleOneLine(subjects[..n], u);
      if EntryOf(subjects[n], u).Some? { EntryIsOneLine(subjects[n], u); }
    }
  }

  lemma {:induction false} InGroupOneLine(entries: seq<Entry>, g: nat)
    requires forall e :: e in entries ==> OneLine(e.text)
    ensures AllOneLine(InGroup(entries, g))
  {
    if entries != [] {
      assert entries[|entries| - 1] in entries;
      InGroupOneLine(entries[..|entries| - 1], g);
    }
  }

  /** For subjects of one line and a hexadecimal source, the next build reads back the digits the
      notes recorded, however many entries were cut. */
  lemma NotesReadBack(subjects: seq<string>, source: string, u: Unicode, listed: Groups, omitted: nat)
    requires ReadsBack(subjects, source, u) && Cut(listed, Grouped(Visible(subjects, u)))
    ensures SourceIn(Render(listed, omitted, source)) == Some(Short(source))
  {
    hide Render;
    hide SourceIn;
    hide Visible;
    hide InGroup;
    VisibleOneLine(subjects, u);
    var all := Grouped(Visible(subjects, u));
    forall g | 0 <= g < 4 ensures AllOneLine(listed[g]) {
      InGroupOneLine(Visible(subjects, u), g);
      assert all[g] == InGroup(Visible(subjects, u), g);
    }
    RenderedSource(listed, omitted, source);
  }
}
