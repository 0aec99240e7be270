/** A message streamed in chunks, from the projector to the transcript
    (crates/sheprd-acp/src/project.rs, `text`). */
module StreamedEntries {
  import opened Basics
  import opened Transcripts
  import opened Texts
  import opened Projectors

  /** The entry a stream of chunks makes when nothing comes between them. */
  function Whole(id: EntryId, stream: Stream, chunks: seq<Str>): Entry {
    Entry(id, StreamKind(stream, Streamed(chunks)))
  }

  function Steps(stream: Stream, message: Option<Str>, chunks: seq<Str>): (r: seq<Step>)
    ensures |r| == |chunks|
    ensures forall i :: 0 <= i < |r| ==> r[i] == Step(Chunk(stream, message, chunks[i]), [])
  {
    seq(|chunks|, i requires 0 <= i < |chunks| => Step(Chunk(stream, message, chunks[i]), []))
  }

  lemma FirstChunk(p: State, t: Transcript, born: Births, stream: Stream, message: Option<Str>, text: Str)
    requires Fit(p, t, born) && text != [] && !Streaming(p, t, stream, message)
    ensures var (q, change) := TextChunk(p, t, stream, message, text);
      && Fold(t, Listed(change)).Fits?
      && Fold(t, Listed(change)).t.entries == t.entries + [Whole(p.next + 1, stream, [text])]
      && q.open == Some(Open(p.next + 1, message, stream))
  {
    hide Apply;
    hide WellFormed;
    hide Card;
    var later := ChunkFits(p, t, born, stream, message, text);
    FoldOne(t, TextChunk(p, t, stream, message, text).1);
    FirstText(text);
    var q := TextChunk(p, t, stream, message, text).0;
    var entry := Entry(p.next + 1, StreamKind(stream, Bounded(text)));
    PushedOnly(t, entry);
  }

  lemma PushedOnly(t: Transcript, entry: Entry)
    requires Apply(t, Push(entry)).Fits?
    ensures Apply(t, Push(entry)).t.entries == t.entries + [entry]
  {}

  lemma FirstText(text: Str)
    requires text != []
    ensures Streamed([text]) == Bounded(text)
  {
    assert [text][..0] == [];
  }

  /** What a later chunk does to the last entry. */
  lemma NextChunk(p: State, t: Transcript, born: Births, before: seq<Entry>, stream: Stream, message: Option<Str>,
                  had: Str, text: Str)
    requires Fit(p, t, born) && text != []
    requires p.open.Some? && p.open.value.stream == stream && p.open.value.message == message
    requires t.entries == before + [Entry(p.open.value.entry, StreamKind(stream, had))]
    ensures var (q, change) := TextChunk(p, t, stream, message, text);
      && q == p && Fold(t, Listed(change)).Fits?
      && Fold(t, Listed(change)).t.entries == before + [Entry(p.open.value.entry, StreamKind(stream, Add(had, text)))]
  {
    hide Apply;
    hide Clip;
    hide Card;
    hide CardsLive;
    hide StreamsKept;
    var id, n := p.open.value.entry, |before|;
    assert t.entries[n] == Entry(id, StreamKind(stream, had));
    EntryAtIs(t, t.entries[n]);
    var change := TextChunk(p, t, stream, message, text).1;
    FoldOne(t, change);
    if change.Some? {
      AppendAt(t, n, change.value.text);
      assert t.entries[n := Entry(id, Appended(StreamKind(stream, had), change.value.text))]
          == before + [Entry(id, Appended(StreamKind(stream, had), change.value.text))];
    }
  }

  /** Chunks of one stream and message with nothing between them become one entry, whose text is
      the bounded stream. */
  lemma {:induction false} StreamBecomesOneEntry(
    p: State, t: Transcript, born: Births, stream: Stream, message: Option<Str>, chunks: seq<Str>)
    requires Fit(p, t, born) && chunks != [] && !Streaming(p, t, stream, message)
    requires forall i :: 0 <= i < |chunks| ==> chunks[i] != []
    ensures var (q, changes) := Run(p, t, Steps(stream, message, chunks));
      && Fold(t, changes).Fits?
      && Fold(t, changes).t.entries == t.entries + [Whole(p.next + 1, stream, chunks)]
      && q.open == Some(Open(p.next + 1, message, stream))
  {
    hide Fit;
    hide Apply;
    hide TextChunk;
    hide StreamKind;
    hide Streaming;
    hide Steps;
    var n := |chunks| - 1;
    var steps := Steps(stream, message, chunks);
    StepsPrefix(stream, message, chunks);
    var (q, changes) := Run(p, t, steps[..n]);
    var u, later := t, born;
    if n == 0 {
      RunNothing(p, t);
      FirstChunk(p, t, born, stream, message, chunks[0]);
      assert chunks == [chunks[0]];
    } else {
      StreamBecomesOneEntry(p, t, born, stream, message, chunks[..n]);
      later := RunFits(p, t, born, steps[..n]);
      u := Fold(t, changes).t;
      NextChunk(q, u, later, t.entries, stream, message, Streamed(chunks[..n]), chunks[n]);
    }
    hide Run;
    RunOne(p, t, steps, q, changes, u);
    FoldConcat(t, changes, Do(q, u, Chunk(stream, message, chunks[n])).1);
  }

  lemma RunNothing(p: State, t: Transcript)
    ensures Run(p, t, []) == (p, []) && Fold(t, []) == Fits(t)
  {}

  lemma RunOne(p: State, t: Transcript, steps: seq<Step>, q: State, changes: seq<Change>, u: Transcript)
    requires steps != [] && Run(p, t, steps[..|steps| - 1]) == (q, changes) && Fold(t, changes) == Fits(u)
    requires steps[|steps| - 1].pictures == []
    ensures var (next, more) := Do(q, u, steps[|steps| - 1].op); Run(p, t, steps) == (next, changes + more)
  {
    hide Do;
    hide Fold;
  }

  lemma StepsPrefix(stream: Stream, message: Option<Str>, chunks: seq<Str>)
    requires chunks != []
    ensures var n := |chunks| - 1;
      var steps := Steps(stream, message, chunks);
      && |steps| == n + 1 && steps[..n] == Steps(stream, message, chunks[..n])
      && steps[n] == Step(Chunk(stream, message, chunks[n]), [])
  {}

  /** So the entry is valid UTF-8 of at most 262144 bytes: the whole stream, a whole-chunk prefix
      that filled it, or such a prefix with one marked cut. */
  lemma StreamedEntryIsShaped(
    p: State, t: Transcript, born: Births, stream: Stream, message: Option<Str>, chunks: seq<Str>)
    requires Fit(p, t, born) && chunks != [] && !Streaming(p, t, stream, message)
    requires forall i :: 0 <= i < |chunks| ==> chunks[i] != [] && Utf8(chunks[i])
    ensures var r := Fold(t, Run(p, t, Steps(stream, message, chunks)).1);
      && r.Fits? && |r.t.entries| == |t.entries| + 1
      && var kind := r.t.entries[|t.entries|].kind;
         && OfStream(kind, stream) && HasText(kind) && |kind.text| <= MAX_ENTRY_TEXT
         && Utf8(kind.text) && Shaped(kind.text, chunks)
  {
    hide Fit;
    hide Run;
    hide Fold;
    hide Shaped;
    hide Utf8;
    StreamBecomesOneEntry(p, t, born, stream, message, chunks);
    StreamIsShaped(chunks);
  }
}
