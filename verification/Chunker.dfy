/** The overlapping document chunker (`chunk_document` in `rag.py`). A text is its list of
    paragraphs, each a non-empty list of words with the page it was marked with; joining words
    with spaces, and the chunk hashes, stand outside. */
module Chunker {
  import opened Common
  import opened Rounding

  datatype Text = Text(words: seq<string>, page: Option<int>)

  /** A paragraph, or the overlap kept from the last chunk: never without words. */
  type Part = t: Text | t.words != [] witness Text([""], None)

  /** A word with the page it is tagged with. */
  datatype Word = Word(text: string, page: Option<int>)

  datatype Chunk = Chunk(ordinal: nat, words: seq<string>, pageStart: Option<int>, pageEnd: Option<int>)

  datatype Sizing = Sizing(target: int, overlap: int)

  predicate SizingAllowed(z: Sizing) {
    z.target >= 20 && 0 <= z.overlap < z.target
  }

  type ChunkSizing = z: Sizing | SizingAllowed(z) witness Sizing(260, 40)

  function Tagged(words: seq<string>, page: Option<int>): (r: seq<Word>)
    ensures |r| == |words| && forall k :: 0 <= k < |words| ==> r[k] == Word(words[k], page)
  {
    if words == [] then [] else Tagged(words[..|words| - 1], page) + [Word(words[|words| - 1], page)]
  }

  /** The words of the parts in order, tagged with their parts' pages. */
  function WordsOf(parts: seq<Part>): seq<Word> {
    if parts == [] then [] else WordsOf(parts[..|parts| - 1]) + Tagged(parts[|parts| - 1].words, parts[|parts| - 1].page)
  }

  function Texts(words: seq<Word>): (r: seq<string>)
    ensures |r| == |words| && forall k :: 0 <= k < |words| ==> r[k] == words[k].text
  {
    if words == [] then [] else Texts(words[..|words| - 1]) + [words[|words| - 1].text]
  }

  function PageMin(parts: seq<Part>): Option<int> {
    if parts == [] then None
    else
      var before, page := PageMin(parts[..|parts| - 1]), parts[|parts| - 1].page;
      if page.None? then before else if before.None? then page else Some(MinInt(before.value, page.value))
  }

  function PageMax(parts: seq<Part>): Option<int> {
    if parts == [] then None
    else
      var before, page := PageMax(parts[..|parts| - 1]), parts[|parts| - 1].page;
      if page.None? then before else if before.None? then page else Some(MaxInt(before.value, page.value))
  }

  // ---------------------------------------------------------------- the loop

  datatype State = State(buffer: seq<Part>, chunks: seq<Chunk>)

  function TailOf(words: seq<Word>, overlap: nat): seq<Word> {
    words[|words| - MinInt(overlap, |words|)..]
  }

  /** `emit`: one chunk of everything buffered; the last words stay buffered, tagged with the page
      of the first of them. */
  function Emitted(st: State, z: ChunkSizing): State {
    if st.buffer == [] then st
    else
      var words := WordsOf(st.buffer);
      var tail := TailOf(words, z.overlap);
      State(if tail == [] then [] else [Text(Texts(tail), tail[0].page)],
            st.chunks + [Chunk(|st.chunks|, Texts(words), PageMin(st.buffer), PageMax(st.buffer))])
  }

  function Taken(st: State, p: Part, z: ChunkSizing): State {
    var ready := if |WordsOf(st.buffer)| + |p.words| > z.target && st.buffer != [] then Emitted(st, z) else st;
    ready.(buffer := ready.buffer + [p])
  }

  function Fed(paragraphs: seq<Part>, z: ChunkSizing): State {
    if paragraphs == [] then State([], [])
    else Taken(Fed(paragraphs[..|paragraphs| - 1], z), paragraphs[|paragraphs| - 1], z)
  }

  function Chunked(paragraphs: seq<Part>, z: ChunkSizing): seq<Chunk> {
    Emitted(Fed(paragraphs, z), z).chunks
  }

  // ---------------------------------------------------------------- as written

  datatype SizingError = InvalidSizing

  class DocumentChunker {
    var buffer: seq<Part>
    var ordinal: nat
    var chunks: seq<Chunk>

    ghost function Model(): State
      reads this
    {
      State(buffer, chunks)
    }

    constructor ()
      ensures Model() == State([], []) && ordinal == 0
    {
      buffer, ordinal, chunks := [], 0, [];
    }

    method Emit(z: ChunkSizing)
      requires ordinal == |chunks|
      modifies this
      ensures Model() == Emitted(old(Model()), z) && ordinal == |chunks|
    {
      if buffer == [] {
        return;
      }
      var words := WordsOf(buffer);
      chunks := chunks + [Chunk(ordinal, Texts(words), PageMin(buffer), PageMax(buffer))];
      ordinal := ordinal + 1;
      var tail := TailOf(words, z.overlap);
      buffer := if tail == [] then [] else [Text(Texts(tail), tail[0].page)];
    }
  }

  method ChunkDocument(paragraphs: seq<Part>, target: int, overlap: int) returns (r: Result<seq<Chunk>, SizingError>)
    ensures r.Ok? <==> 20 <= target && 0 <= overlap < target
    ensures r.Ok? ==> r.value == Chunked(paragraphs, Sizing(target, overlap))
  {
    hide Emitted;
    if target < 20 || overlap < 0 || overlap >= target {
      return Err(InvalidSizing);
    }
    var z: ChunkSizing := Sizing(target, overlap);
    var work := new DocumentChunker();
    for k := 0 to |paragraphs|
      invariant fresh(work) && work.Model() == Fed(paragraphs[..k], z) && work.ordinal == |work.chunks|
    {
      assert paragraphs[..k + 1][..k] == paragraphs[..k];
      var p := paragraphs[k];
      if |WordsOf(work.buffer)| + |p.words| > z.target && work.buffer != [] {
        work.Emit(z);
      }
      work.buffer := work.buffer + [p];
    }
    assert paragraphs[..|paragraphs|] == paragraphs;
    if work.buffer != [] {
      work.Emit(z);
    } else {
      NothingToEmit(work.Model(), z);
    }
    r := Ok(work.chunks);
  }

  lemma NothingToEmit(st: State, z: ChunkSizing)
    requires st.buffer == []
    ensures Emitted(st, z) == st
  {
  }

  // ---------------------------------------------------------------- where chunks lie in the document

  /** Where chunk `k` starts among the document's words: each chunk steps back over the overlap. */
  function StartOf(chunks: seq<Chunk>, overlap: nat, k: nat): int
    requires k <= |chunks|
  {
    if k == 0 then 0
    else StartOf(chunks, overlap, k - 1) + |chunks[k - 1].words| - MinInt(overlap, |chunks[k - 1].words|)
  }

  lemma {:induction false} StartOfPrefix(chunks: seq<Chunk>, more: seq<Chunk>, overlap: nat, k: nat)
    requires k <= |chunks|
    ensures StartOf(chunks + more, overlap, k) == StartOf(chunks, overlap, k)
  {
    if k > 0 {
      StartOfPrefix(chunks, more, overlap, k - 1);
      assert (chunks + more)[k - 1] == chunks[k - 1];
    }
  }

  /** Chunk `k` is a run of the document's words. */
  predicate LiesIn(texts: seq<string>, chunks: seq<Chunk>, overlap: nat, k: nat)
    requires k < |chunks|
  {
    Covers(texts, StartOf(chunks, overlap, k), chunks[k].words)
  }

  predicate Covers(texts: seq<string>, start: int, part: seq<string>) {
    0 <= start && start + |part| <= |texts| && texts[start..start + |part|] == part
  }

  /** The texts of the parts, in order. */
  function TextsOf(parts: seq<Part>): seq<string> {
    Texts(WordsOf(parts))
  }

  /** Every chunk lies where the overlaps say. */
  ghost predicate ChunksLie(texts: seq<string>, chunks: seq<Chunk>, overlap: nat) {
    forall k :: 0 <= k < |chunks| ==> LiesIn(texts, chunks, overlap, k) && chunks[k].ordinal == k
  }

  /** The buffer is the end of the words read, and the next chunk starts where it starts. */
  ghost predicate Aligned(st: State, texts: seq<string>, overlap: nat) {
    var buffered := TextsOf(st.buffer);
    && Covers(texts, |texts| - |buffered|, buffered)
    && StartOf(st.chunks, overlap, |st.chunks|) == |texts| - |buffered|
    && ChunksLie(texts, st.chunks, overlap)
  }

  lemma TextsAppend(parts: seq<Part>, p: Part)
    ensures TextsOf(parts + [p]) == TextsOf(parts) + p.words
  {
    assert (parts + [p])[..|parts|] == parts;
  }

  /** What stays buffered is the end of what was buffered. */
  lemma KeptTexts(st: State, z: ChunkSizing)
    requires st.buffer != []
    ensures
      var b := TextsOf(st.buffer);
      TextsOf(Emitted(st, z).buffer) == b[|b| - MinInt(z.overlap, |b|)..]
  {
    hide WordsOf;
    var words := WordsOf(st.buffer);
    var tail := TailOf(words, z.overlap);
    if tail != [] {
      TextsAppend([], Text(Texts(tail), tail[0].page));
    }
    NoTexts();
    assert Emitted(st, z).buffer == if tail == [] then [] else [] + [Text(Texts(tail), tail[0].page)];
  }

  lemma NoTexts()
    ensures TextsOf([]) == []
  {
  }

  lemma ChunkAppended(texts: seq<string>, chunks: seq<Chunk>, chunk: Chunk, overlap: nat)
    requires ChunksLie(texts, chunks, overlap) && chunk.ordinal == |chunks|
    requires Covers(texts, StartOf(chunks, overlap, |chunks|), chunk.words)
    ensures ChunksLie(texts, chunks + [chunk], overlap)
    ensures StartOf(chunks + [chunk], overlap, |chunks| + 1)
         == StartOf(chunks, overlap, |chunks|) + |chunk.words| - MinInt(overlap, |chunk.words|)
  {
    hide Covers;
    forall k | 0 <= k <= |chunks| ensures StartOf(chunks + [chunk], overlap, k) == StartOf(chunks, overlap, k) {
      StartOfPrefix(chunks, [chunk], overlap, k);
    }
    forall k | 0 <= k < |chunks| ensures LiesIn(texts, chunks + [chunk], overlap, k) {
      assert LiesIn(texts, chunks, overlap, k);
    }
  }

  lemma SuffixOfSuffix(texts: seq<string>, b: seq<string>, n: nat)
    requires Covers(texts, |texts| - |b|, b) && n <= |b|
    ensures Covers(texts, |texts| - n, b[|b| - n..])
  {
  }

  lemma EmitAligned(st: State, texts: seq<string>, z: ChunkSizing)
    requires Aligned(st, texts, z.overlap) && st.buffer != []
    ensures Aligned(Emitted(st, z), texts, z.overlap)
  {
    hide PageMin, PageMax, TextsOf, StartOf, Covers, ChunksLie, WordsOf;
    var b := TextsOf(st.buffer);
    var chunk := Chunk(|st.chunks|, b, PageMin(st.buffer), PageMax(st.buffer));
    EmittedChunks(st, z);
    KeptTexts(st, z);
    ChunkAppended(texts, st.chunks, chunk, z.overlap);
    SuffixOfSuffix(texts, b, MinInt(z.overlap, |b|));
    hide Emitted;
  }

  lemma EmittedChunks(st: State, z: ChunkSizing)
    requires st.buffer != []
    ensures Emitted(st, z).chunks
         == st.chunks + [Chunk(|st.chunks|, TextsOf(st.buffer), PageMin(st.buffer), PageMax(st.buffer))]
  {
    hide PageMin, PageMax, WordsOf;
  }

  lemma CoversMore(texts: seq<string>, more: seq<string>, start: int, part: seq<string>)
    requires Covers(texts, start, part)
    ensures Covers(texts + more, start, part)
  {
    assert (texts + more)[start..start + |part|] == texts[start..start + |part|];
  }

  lemma AppendAligned(st: State, texts: seq<string>, p: Part, overlap: nat)
    requires Aligned(st, texts, overlap)
    ensures Aligned(st.(buffer := st.buffer + [p]), texts + p.words, overlap)
  {
    hide StartOf, TextsOf;
    TextsAppend(st.buffer, p);
    var b := TextsOf(st.buffer);
    forall k | 0 <= k < |st.chunks| ensures LiesIn(texts + p.words, st.chunks, overlap, k) {
      assert LiesIn(texts, st.chunks, overlap, k);
      CoversMore(texts, p.words, StartOf(st.chunks, overlap, k), st.chunks[k].words);
    }
    assert (texts + p.words)[|texts| - |b|..] == texts[|texts| - |b|..] + p.words;
  }

  lemma TakenAligned(st: State, texts: seq<string>, p: Part, z: ChunkSizing)
    requires Aligned(st, texts, z.overlap)
    ensures Aligned(Taken(st, p, z), texts + p.words, z.overlap)
  {
    hide Emitted, Aligned, WordsOf;
    if |WordsOf(st.buffer)| + |p.words| > z.target && st.buffer != [] {
      EmitAligned(st, texts, z);
      AppendAligned(Emitted(st, z), texts, p, z.overlap);
    } else {
      AppendAligned(st, texts, p, z.overlap);
    }
  }

  lemma {:induction false} FedAligned(paragraphs: seq<Part>, z: ChunkSizing)
    ensures Aligned(Fed(paragraphs, z), TextsOf(paragraphs), z.overlap)
    ensures paragraphs != [] ==> Fed(paragraphs, z).buffer != []
  {
    hide Aligned, TextsOf, Emitted, WordsOf;
    if paragraphs == [] {
      NothingAligned(z);
    } else {
      var n := |paragraphs| - 1;
      FedAligned(paragraphs[..n], z);
      assert paragraphs == paragraphs[..n] + [paragraphs[n]];
      TextsAppend(paragraphs[..n], paragraphs[n]);
      TakenAligned(Fed(paragraphs[..n], z), TextsOf(paragraphs[..n]), paragraphs[n], z);
    }
  }

  lemma NothingAligned(z: ChunkSizing)
    ensures Aligned(Fed([], z), TextsOf([]), z.overlap)
  {
    NoTexts();
  }

  // ---------------------------------------------------------------- reconstruction

  /** The first `k` chunks joined again: each later one without its leading overlap. */
  function Rejoined(chunks: seq<Chunk>, overlap: nat, k: nat): seq<string>
    requires k <= |chunks|
  {
    if k == 0 then []
    else if k == 1 then chunks[0].words
    else Rejoined(chunks, overlap, k - 1) + WithoutOverlap(chunks, overlap, k - 1)
  }

  function WithoutOverlap(chunks: seq<Chunk>, overlap: nat, k: nat): seq<string>
    requires 0 < k < |chunks|
  {
    var words := chunks[k].words;
    words[MinInt(MinInt(overlap, |chunks[k - 1].words|), |words|)..]
  }

  lemma {:induction false} RejoinedIs(texts: seq<string>, chunks: seq<Chunk>, overlap: nat, k: nat)
    requires 0 < k <= |chunks| && ChunksLie(texts, chunks, overlap)
    requires forall j :: 0 < j < |chunks| ==> MinInt(overlap, |chunks[j - 1].words|) <= |chunks[j].words|
    ensures
      var end := StartOf(chunks, overlap, k - 1) + |chunks[k - 1].words|;
      0 <= end <= |texts| && Rejoined(chunks, overlap, k) == texts[..end]
  {
    hide StartOf, WithoutOverlap, MinInt, ChunksLie;
    StartStep(chunks, overlap, k - 1);
    LiesAt(texts, chunks, overlap, k - 1);
    if k > 1 {
      RejoinedIs(texts, chunks, overlap, k - 1);
      DropsOverlap(chunks, overlap, k - 1);
      var skip := MinInt(overlap, |chunks[k - 2].words|);
      var start := StartOf(chunks, overlap, k - 1);
      JoinSlices(texts, start, start + |chunks[k - 1].words|, skip);
    }
  }

  lemma LiesAt(texts: seq<string>, chunks: seq<Chunk>, overlap: nat, k: nat)
    requires ChunksLie(texts, chunks, overlap) && k < |chunks|
    ensures Covers(texts, StartOf(chunks, overlap, k), chunks[k].words)
  {
    assert LiesIn(texts, chunks, overlap, k);
  }

  lemma DropsOverlap(chunks: seq<Chunk>, overlap: nat, k: nat)
    requires 0 < k < |chunks| && MinInt(overlap, |chunks[k - 1].words|) <= |chunks[k].words|
    ensures 0 <= MinInt(overlap, |chunks[k - 1].words|)
    ensures WithoutOverlap(chunks, overlap, k) == chunks[k].words[MinInt(overlap, |chunks[k - 1].words|)..]
  {
  }

  lemma StartStep(chunks: seq<Chunk>, overlap: nat, k: nat)
    requires k < |chunks|
    ensures StartOf(chunks, overlap, k) ==
              if k == 0 then 0
              else StartOf(chunks, overlap, k - 1) + |chunks[k - 1].words| - MinInt(overlap, |chunks[k - 1].words|)
  {
  }

  lemma JoinSlices(texts: seq<string>, start: int, end: int, skip: int)
    requires 0 <= start <= start + skip <= end <= |texts| && 0 <= skip
    ensures texts[..start + skip] + texts[start..end][skip..] == texts[..end]
  {
  }

  /** After the first, every chunk repeats the kept words and adds at least one more. */
  ghost predicate OverlapsHeld(chunks: seq<Chunk>, overlap: nat) {
    forall j :: 0 < j < |chunks| ==> MinInt(overlap, |chunks[j - 1].words|) < |chunks[j].words|
  }

  /** The next chunk's buffer holds more than what was kept of the last chunk. */
  ghost predicate BufferHolds(st: State, overlap: nat) {
    && OverlapsHeld(st.chunks, overlap)
    && (forall k :: 0 <= k < |st.chunks| ==> st.chunks[k].words != [])
    && (st.buffer == [] ==> st.chunks == [])
    && (st.chunks != [] ==> MinInt(overlap, |st.chunks[|st.chunks| - 1].words|) < |TextsOf(st.buffer)|)
  }

  lemma {:induction false} FedHolds(paragraphs: seq<Part>, z: ChunkSizing)
    ensures BufferHolds(Fed(paragraphs, z), z.overlap)
  {
    if paragraphs != [] {
      var n := |paragraphs| - 1;
      FedHolds(paragraphs[..n], z);
      TakenHolds(Fed(paragraphs[..n], z), paragraphs[n], z);
      hide BufferHolds;
    }
  }

  lemma TakenHolds(st: State, p: Part, z: ChunkSizing)
    requires BufferHolds(st, z.overlap)
    ensures BufferHolds(Taken(st, p, z), z.overlap)
  {
    hide TextsOf, PageMin, PageMax, WordsOf;
    TextsAppend(st.buffer, p);
    if |WordsOf(st.buffer)| + |p.words| > z.target && st.buffer != [] {
      EmitHolds(st, z);
      TextsAppend(Emitted(st, z).buffer, p);
    }
    hide Emitted;
  }

  lemma EmitHolds(st: State, z: ChunkSizing)
    requires BufferHolds(st, z.overlap) && st.buffer != []
    ensures
      var after := Emitted(st, z);
      && OverlapsHeld(after.chunks, z.overlap) && after.chunks != []
      && (forall k :: 0 <= k < |after.chunks| ==> after.chunks[k].words != [])
      && |TextsOf(after.buffer)| == MinInt(z.overlap, |after.chunks[|after.chunks| - 1].words|)
  {
    hide TextsOf, PageMin, PageMax, Emitted;
    EmittedChunks(st, z);
    KeptTexts(st, z);
    PartsHaveWords(st.buffer);
  }

  lemma PartsHaveWords(parts: seq<Part>)
    requires parts != []
    ensures |TextsOf(parts)| > 0
  {
    assert parts == parts[..|parts| - 1] + [parts[|parts| - 1]];
    TextsAppend(parts[..|parts| - 1], parts[|parts| - 1]);
  }

  /** Reconstruction: dropping from each later chunk its leading overlap and joining gives back
      every word of the document, in order. Each chunk is the run of the document that the
      overlaps place it at, and every chunk after the first brings at least one new word. */
  lemma ChunksRejoin(paragraphs: seq<Part>, z: ChunkSizing)
    ensures
      var chunks, texts := Chunked(paragraphs, z), TextsOf(paragraphs);
      && Rejoined(chunks, z.overlap, |chunks|) == texts
      && ChunksLie(texts, chunks, z.overlap)
      && OverlapsHeld(chunks, z.overlap)
  {
    hide TextsOf, StartOf, Rejoined, Covers;
    var st := Fed(paragraphs, z);
    FedAligned(paragraphs, z);
    FedHolds(paragraphs, z);
    if paragraphs == [] {
      NoTexts();
      NothingToRejoin(z);
    } else {
      EmitAligned(st, TextsOf(paragraphs), z);
      EmitHolds(st, z);
      var after := Emitted(st, z);
      RejoinedIs(TextsOf(paragraphs), after.chunks, z.overlap, |after.chunks|);
      LastEnds(st, TextsOf(paragraphs), z);
    }
  }

  lemma NothingToRejoin(z: ChunkSizing)
    ensures Chunked([], z) == [] && Rejoined([], z.overlap, 0) == []
  {
  }

  lemma LastEnds(st: State, texts: seq<string>, z: ChunkSizing)
    requires Aligned(st, texts, z.overlap) && st.buffer != []
    ensures
      var chunks := Emitted(st, z).chunks;
      chunks != [] && StartOf(chunks, z.overlap, |chunks| - 1) + |chunks[|chunks| - 1].words| == |texts|
  {
    hide TextsOf, PageMin, PageMax, Emitted;
    EmittedChunks(st, z);
    StartOfPrefix(st.chunks, [Chunk(|st.chunks|, TextsOf(st.buffer), PageMin(st.buffer), PageMax(st.buffer))], z.overlap, |st.chunks|);
    hide StartOf;
  }

  // ---------------------------------------------------------------- sizes

  function Longest(paragraphs: seq<Part>): nat {
    if paragraphs == [] then 0
    else
      var before, last := Longest(paragraphs[..|paragraphs| - 1]), |paragraphs[|paragraphs| - 1].words|;
      if before >= last then before else last
  }

  ghost predicate WithinSize(st: State, bound: int) {
    |TextsOf(st.buffer)| <= bound && forall k :: 0 <= k < |st.chunks| ==> |st.chunks[k].words| <= bound
  }

  lemma EmitWithin(st: State, z: ChunkSizing, bound: int)
    requires WithinSize(st, bound)
    ensures WithinSize(Emitted(st, z), bound)
    ensures st.buffer != [] ==> |TextsOf(Emitted(st, z).buffer)| <= z.overlap
  {
    hide Emitted, TextsOf;
    if st.buffer != [] {
      EmittedChunks(st, z);
      KeptTexts(st, z);
    } else {
      NothingToEmit(st, z);
    }
  }

  lemma BufferedCount(parts: seq<Part>)
    ensures |WordsOf(parts)| == |TextsOf(parts)|
  {
  }

  lemma {:induction false} FedWithin(paragraphs: seq<Part>, z: ChunkSizing, bound: int)
    requires z.target <= bound && z.overlap + Longest(paragraphs) <= bound
    ensures WithinSize(Fed(paragraphs, z), bound)
  {
    hide Emitted, TextsOf, WordsOf;
    if paragraphs == [] {
      NoTexts();
    } else {
      var n := |paragraphs| - 1;
      var st, p := Fed(paragraphs[..n], z), paragraphs[n];
      FedWithin(paragraphs[..n], z, bound);
      EmitWithin(st, z, bound);
      BufferedCount(st.buffer);
      TextsAppend(st.buffer, p);
      TextsAppend(Emitted(st, z).buffer, p);
      if st.buffer == [] {
        NoTexts();
      }
    }
  }

  /** No chunk is longer than the target, or than the overlap plus the longest paragraph. */
  lemma ChunksWithinSize(paragraphs: seq<Part>, z: ChunkSizing, k: nat)
    requires k < |Chunked(paragraphs, z)|
    ensures |Chunked(paragraphs, z)[k].words| <= MaxInt(z.target, z.overlap + Longest(paragraphs))
  {
    hide Emitted;
    var bound := MaxInt(z.target, z.overlap + Longest(paragraphs));
    FedWithin(paragraphs, z, bound);
    EmitWithin(Fed(paragraphs, z), z, bound);
  }

  // ---------------------------------------------------------------- pages

  /** Pages are marked throughout and never go back. */
  predicate Marked(paragraphs: seq<Part>) {
    && (forall k :: 0 <= k < |paragraphs| ==> paragraphs[k].page.Some?)
    && (forall i, j :: 0 <= i < j < |paragraphs| ==> paragraphs[i].page.value <= paragraphs[j].page.value)
  }

  /** The true page of each word of the document. */
  function PagesOf(parts: seq<Part>): seq<int> {
    if parts == [] then []
    else
      var p := parts[|parts| - 1];
      PagesOf(parts[..|parts| - 1]) + Repeated(if p.page.Some? then p.page.value else 0, |p.words|)
  }

  function Repeated(page: int, n: nat): (r: seq<int>)
    ensures |r| == n && forall k :: 0 <= k < n ==> r[k] == page
  {
    if n == 0 then [] else Repeated(page, n - 1) + [page]
  }

  ghost predicate NeverBack(pages: seq<int>) {
    forall i, j :: 0 <= i <= j < |pages| ==> pages[i] <= pages[j]
  }

  lemma PagesAppend(parts: seq<Part>, p: Part)
    requires p.page.Some?
    ensures PagesOf(parts + [p]) == PagesOf(parts) + Repeated(p.page.value, |p.words|)
  {
    assert (parts + [p])[..|parts|] == parts;
  }

  /** Every tag in the buffer is at most the true page of its word. */
  ghost predicate TagsBelow(buffer: seq<Part>, pages: seq<int>) {
    var tags := PagesOf(buffer);
    && (forall k :: 0 <= k < |buffer| ==> buffer[k].page.Some?)
    && |tags| <= |pages|
    && forall i :: 0 <= i < |tags| ==> tags[i] <= pages[|pages| - |tags| + i]
  }

  /** The chunk's range holds the page of each of its words and ends on the page of its last. */
  ghost predicate RangeHolds(pages: seq<int>, start: int, c: Chunk) {
    && c.words != [] && 0 <= start && start + |c.words| <= |pages| && c.pageStart.Some? && c.pageEnd.Some?
    && c.pageEnd.value == pages[start + |c.words| - 1]
    && forall i :: start <= i < start + |c.words| ==> c.pageStart.value <= pages[i] <= c.pageEnd.value
  }

  lemma {:induction false} TagsLength(parts: seq<Part>)
    ensures |PagesOf(parts)| == |TextsOf(parts)|
  {
    if parts == [] {
      NoTexts();
    } else {
      var n := |parts| - 1;
      TagsLength(parts[..n]);
      assert parts == parts[..n] + [parts[n]];
      TextsAppend(parts[..n], parts[n]);
    }
  }

  /** The range of a buffer's tags, which every word's tag lies in. */
  lemma {:induction false} TagRange(parts: seq<Part>)
    requires parts != [] && forall k :: 0 <= k < |parts| ==> parts[k].page.Some?
    ensures
      var tags := PagesOf(parts);
      && tags != [] && PageMin(parts).Some? && PageMax(parts).Some?
      && (forall i :: 0 <= i < |tags| ==> PageMin(parts).value <= tags[i] <= PageMax(parts).value)
      && PageMax(parts).value in tags && tags[|tags| - 1] == parts[|parts| - 1].page.value
  {
    var n := |parts| - 1;
    if n > 0 {
      TagRange(parts[..n]);
      var before := PagesOf(parts[..n]);
      var k :| 0 <= k < |before| && before[k] == PageMax(parts[..n]).value;
      assert PagesOf(parts)[k] == before[k];
    }
    assert PagesOf(parts)[|PagesOf(parts)| - 1] == parts[n].page.value;
  }

  lemma {:induction false} WordPages(parts: seq<Part>)
    requires forall k :: 0 <= k < |parts| ==> parts[k].page.Some?
    ensures |WordsOf(parts)| == |PagesOf(parts)|
    ensures forall i :: 0 <= i < |PagesOf(parts)| ==> WordsOf(parts)[i].page == Some(PagesOf(parts)[i])
  {
    if parts != [] {
      WordPages(parts[..|parts| - 1]);
    }
  }

  /** The last buffered part was read last. */
  ghost predicate Fresh(buffer: seq<Part>, pages: seq<int>) {
    buffer != [] && pages != [] && buffer[|buffer| - 1].page == Some(pages[|pages| - 1])
  }

  lemma EmittedRange(buffer: seq<Part>, pages: seq<int>, c: Chunk)
    requires TagsBelow(buffer, pages) && Fresh(buffer, pages) && NeverBack(pages)
    requires c.words == TextsOf(buffer) && c.pageStart == PageMin(buffer) && c.pageEnd == PageMax(buffer)
    ensures RangeHolds(pages, |pages| - |PagesOf(buffer)|, c)
  {
    hide TextsOf, PageMin, PageMax, PagesOf;
    TagRange(buffer);
    TagsLength(buffer);
    var tags := PagesOf(buffer);
    var k :| 0 <= k < |tags| && tags[k] == PageMax(buffer).value;
    assert tags[k] <= pages[|pages| - |tags| + k] <= pages[|pages| - 1];
    forall i | |pages| - |tags| <= i < |pages| ensures PageMin(buffer).value <= pages[i] <= PageMax(buffer).value {
      assert tags[i - (|pages| - |tags|)] <= pages[|pages| - |tags| + (i - (|pages| - |tags|))];
    }
  }

  lemma EmittedTags(st: State, z: ChunkSizing, pages: seq<int>)
    requires TagsBelow(st.buffer, pages) && NeverBack(pages) && st.buffer != []
    ensures TagsBelow(Emitted(st, z).buffer, pages)
  {
    hide PageMin, PageMax, WordsOf, PagesOf;
    WordPages(st.buffer);
    var words, tags := WordsOf(st.buffer), PagesOf(st.buffer);
    var tail := TailOf(words, z.overlap);
    NoPages();
    if tail != [] {
      var kept: Part := Text(Texts(tail), tail[0].page);
      var from := |words| - |tail|;
      assert tail[0] == words[from];
      PagesAppend([], kept);
      assert [] + [kept] == [kept];
      assert tags[from] <= pages[|pages| - |tags| + from];
      assert PagesOf([kept]) == [] + Repeated(tags[from], |tail|);
      forall i | 0 <= i < |tail| ensures PagesOf([kept])[i] <= pages[|pages| - |tail| + i] {
        assert pages[|pages| - |tail|] <= pages[|pages| - |tail| + i];
      }
    }
  }

  lemma NoPages()
    ensures PagesOf([]) == []
  {
  }

  ghost predicate RangesHold(pages: seq<int>, chunks: seq<Chunk>, overlap: nat) {
    forall k :: 0 <= k < |chunks| ==> RangeHolds(pages, StartOf(chunks, overlap, k), chunks[k])
  }

  lemma EmitRanges(st: State, z: ChunkSizing, texts: seq<string>, pages: seq<int>)
    requires Aligned(st, texts, z.overlap) && |texts| == |pages|
    requires TagsBelow(st.buffer, pages) && Fresh(st.buffer, pages) && NeverBack(pages) && RangesHold(pages, st.chunks, z.overlap)
    ensures RangesHold(pages, Emitted(st, z).chunks, z.overlap)
  {
    hide TextsOf, PageMin, PageMax, StartOf, TagsBelow, NeverBack, RangeHolds, Emitted, Covers;
    var chunk := Chunk(|st.chunks|, TextsOf(st.buffer), PageMin(st.buffer), PageMax(st.buffer));
    EmittedChunks(st, z);
    EmittedRange(st.buffer, pages, chunk);
    TagsLength(st.buffer);
    forall k | 0 <= k <= |st.chunks| ensures StartOf(st.chunks + [chunk], z.overlap, k) == StartOf(st.chunks, z.overlap, k) {
      StartOfPrefix(st.chunks, [chunk], z.overlap, k);
    }
  }

  lemma TagsAppend(buffer: seq<Part>, pages: seq<int>, p: Part)
    requires TagsBelow(buffer, pages) && p.page.Some?
    ensures
      var after := pages + Repeated(p.page.value, |p.words|);
      TagsBelow(buffer + [p], after) && Fresh(buffer + [p], after)
  {
    hide PagesOf;
    PagesAppend(buffer, p);
  }

  lemma RangesMore(pages: seq<int>, more: seq<int>, chunks: seq<Chunk>, overlap: nat)
    requires RangesHold(pages, chunks, overlap)
    ensures RangesHold(pages + more, chunks, overlap)
  {
    hide StartOf;
    forall k | 0 <= k < |chunks| ensures RangeHolds(pages + more, StartOf(chunks, overlap, k), chunks[k]) {
      RangeMore(pages, more, StartOf(chunks, overlap, k), chunks[k]);
    }
  }

  lemma RangeMore(pages: seq<int>, more: seq<int>, start: int, c: Chunk)
    requires RangeHolds(pages, start, c)
    ensures RangeHolds(pages + more, start, c)
  {
  }

  lemma {:induction false} MarkedNeverBack(paragraphs: seq<Part>)
    requires Marked(paragraphs)
    ensures NeverBack(PagesOf(paragraphs))
    ensures forall i :: 0 <= i < |PagesOf(paragraphs)| ==> PagesOf(paragraphs)[i] <= paragraphs[|paragraphs| - 1].page.value
  {
    if paragraphs != [] {
      var n := |paragraphs| - 1;
      MarkedNeverBack(paragraphs[..n]);
      if n > 0 {
        assert paragraphs[n - 1].page.value <= paragraphs[n].page.value;
      }
    }
  }

  lemma {:induction false} FedRanges(paragraphs: seq<Part>, z: ChunkSizing)
    requires Marked(paragraphs)
    ensures
      var st, pages := Fed(paragraphs, z), PagesOf(paragraphs);
      && TagsBelow(st.buffer, pages) && RangesHold(pages, st.chunks, z.overlap)
      && (paragraphs != [] ==> Fresh(st.buffer, pages))
  {
    hide Emitted, WordsOf, PagesOf, TextsOf, RangesHold, TagsBelow, Fresh, Aligned, NeverBack;
    if paragraphs == [] {
      NothingRanged(z);
    } else {
      var n := |paragraphs| - 1;
      var front, p := paragraphs[..n], paragraphs[n];
      var st, pages := Fed(front, z), PagesOf(front);
      FedRanges(front, z);
      FedAligned(front, z);
      MarkedNeverBack(front);
      TagsLength(front);
      assert paragraphs == front + [p];
      PagesAppend(front, p);
      if |WordsOf(st.buffer)| + |p.words| > z.target && st.buffer != [] {
        BufferedMeansRead(front, z);
        EmitRanges(st, z, TextsOf(front), pages);
        EmittedTags(st, z, pages);
        TagsAppend(Emitted(st, z).buffer, pages, p);
        RangesMore(pages, Repeated(p.page.value, |p.words|), Emitted(st, z).chunks, z.overlap);
      } else {
        TagsAppend(st.buffer, pages, p);
        RangesMore(pages, Repeated(p.page.value, |p.words|), st.chunks, z.overlap);
      }
    }
  }

  lemma NothingRanged(z: ChunkSizing)
    ensures TagsBelow(Fed([], z).buffer, PagesOf([])) && RangesHold(PagesOf([]), Fed([], z).chunks, z.overlap)
  {
  }

  lemma BufferedMeansRead(paragraphs: seq<Part>, z: ChunkSizing)
    requires Fed(paragraphs, z).buffer != []
    ensures paragraphs != []
  {
  }

  /** With page markers that never go back, each chunk's page range contains the true page of every
      one of its words, although kept words carry only the page of the first of them, and it ends
      on the page of the chunk's last word. */
  lemma PageRangesHold(paragraphs: seq<Part>, z: ChunkSizing)
    requires Marked(paragraphs)
    ensures RangesHold(PagesOf(paragraphs), Chunked(paragraphs, z), z.overlap)
  {
    hide Emitted, PagesOf, TextsOf, RangesHold, TagsBelow, Fresh, Aligned, NeverBack;
    var st := Fed(paragraphs, z);
    FedRanges(paragraphs, z);
    FedAligned(paragraphs, z);
    MarkedNeverBack(paragraphs);
    TagsLength(paragraphs);
    if st.buffer != [] {
      BufferedMeansRead(paragraphs, z);
      EmitRanges(st, z, TextsOf(paragraphs), PagesOf(paragraphs));
    } else {
      NothingToEmit(st, z);
    }
  }
}
