/** Where the chunker cuts and how it ranges pages (`chunk_document` in `rag.py`): a chunk ends only
    where the next paragraph would take it past the target. */
module ChunkOutcomes {
  import opened Common
  import opened Rounding
  import opened Chunker

  /** The chunk ends at the end of a paragraph, and with the next one would have passed the target. */
  predicate CutBefore(paragraphs: seq<Part>, chunks: seq<Chunk>, z: ChunkSizing, k: nat, m: nat)
    requires k < |chunks|
  {
    && 0 < m < |paragraphs|
    && StartOf(chunks, z.overlap, k) + |chunks[k].words| == |TextsOf(paragraphs[..m])|
    && z.target < |chunks[k].words| + |paragraphs[m].words|
  }

  ghost predicate AllCut(paragraphs: seq<Part>, chunks: seq<Chunk>, z: ChunkSizing, n: nat)
    requires n <= |chunks|
  {
    forall k :: 0 <= k < n ==> IsCut(paragraphs, chunks, z, k)
  }

  ghost predicate IsCut(paragraphs: seq<Part>, chunks: seq<Chunk>, z: ChunkSizing, k: nat)
    requires k < |chunks|
  {
    exists m: nat :: CutBefore(paragraphs, chunks, z, k, m)
  }

  lemma CutStays(paragraphs: seq<Part>, more: seq<Part>, chunks: seq<Chunk>, extra: seq<Chunk>, z: ChunkSizing, n: nat)
    requires n <= |chunks| && AllCut(paragraphs, chunks, z, n)
    ensures AllCut(paragraphs + more, chunks + extra, z, n)
  {
    hide TextsOf, StartOf;
    forall k | 0 <= k < n ensures IsCut(paragraphs + more, chunks + extra, z, k) {
      assert IsCut(paragraphs, chunks, z, k);
      var m: nat :| CutBefore(paragraphs, chunks, z, k, m);
      assert (paragraphs + more)[..m] == paragraphs[..m];
      StartOfPrefix(chunks, extra, z.overlap, k);
      assert CutBefore(paragraphs + more, chunks + extra, z, k, m);
    }
  }

  lemma {:induction false} FedCut(paragraphs: seq<Part>, z: ChunkSizing)
    ensures AllCut(paragraphs, Fed(paragraphs, z).chunks, z, |Fed(paragraphs, z).chunks|)
  {
    hide TextsOf, StartOf, AllCut, Emitted, CutBefore, WordsOf;
    if paragraphs == [] {
      NothingCut(z);
    } else {
      var n := |paragraphs| - 1;
      var st, p := Fed(paragraphs[..n], z), paragraphs[n];
      assert paragraphs == paragraphs[..n] + [p];
      FedCut(paragraphs[..n], z);
      FedAligned(paragraphs[..n], z);
      CutStays(paragraphs[..n], [p], st.chunks, [], z, |st.chunks|);
      assert st.chunks + [] == st.chunks;
      if |WordsOf(st.buffer)| + |p.words| > z.target && st.buffer != [] {
        CutHere(paragraphs, z, st);
      }
    }
  }

  lemma NothingCut(z: ChunkSizing)
    ensures AllCut([], Fed([], z).chunks, z, 0)
  {
  }

  lemma BufferWords(buffer: seq<Part>)
    ensures |TextsOf(buffer)| == |WordsOf(buffer)|
  {
  }

  /** The emission before the last paragraph. */
  lemma CutHere(paragraphs: seq<Part>, z: ChunkSizing, st: State)
    requires |paragraphs| > 1 && st.buffer != [] && AllCut(paragraphs, st.chunks, z, |st.chunks|)
    requires Aligned(st, TextsOf(paragraphs[..|paragraphs| - 1]), z.overlap)
    requires |WordsOf(st.buffer)| + |paragraphs[|paragraphs| - 1].words| > z.target
    ensures AllCut(paragraphs, Emitted(st, z).chunks, z, |Emitted(st, z).chunks|)
  {
    hide TextsOf, StartOf, Emitted, WordsOf, PageMin, PageMax, ChunksLie, Covers;
    var n := |paragraphs| - 1;
    var chunk := Chunk(|st.chunks|, TextsOf(st.buffer), PageMin(st.buffer), PageMax(st.buffer));
    EmittedChunks(st, z);
    BufferWords(st.buffer);
    CutStays(paragraphs, [], st.chunks, [chunk], z, |st.chunks|);
    assert paragraphs + [] == paragraphs;
    var chunks := st.chunks + [chunk];
    StartOfPrefix(st.chunks, [chunk], z.overlap, |st.chunks|);
    assert CutBefore(paragraphs, chunks, z, |st.chunks|, n);
    assert IsCut(paragraphs, chunks, z, |st.chunks|);
    hide IsCut;
  }

  /** Every chunk but the last is cut at a paragraph end, and only because the next paragraph would
      have taken it past the target; the last one ends with the document. */
  lemma ChunksAreFull(paragraphs: seq<Part>, z: ChunkSizing)
    requires paragraphs != []
    ensures
      var chunks := Chunked(paragraphs, z);
      && chunks != [] && AllCut(paragraphs, chunks, z, |chunks| - 1)
      && StartOf(chunks, z.overlap, |chunks| - 1) + |chunks[|chunks| - 1].words| == |TextsOf(paragraphs)|
  {
    hide TextsOf, StartOf, AllCut, Emitted, PageMin, PageMax, Aligned;
    var st := Fed(paragraphs, z);
    FedAligned(paragraphs, z);
    FedCut(paragraphs, z);
    LastEnds(st, TextsOf(paragraphs), z);
    EmittedChunks(st, z);
    CutStays(paragraphs, [], st.chunks, [Chunk(|st.chunks|, TextsOf(st.buffer), PageMin(st.buffer), PageMax(st.buffer))], z, |st.chunks|);
    assert paragraphs + [] == paragraphs;
  }

  /** A chunk's range, marked or not: the least and the greatest page of its parts, and none when no
      part has one. */
  lemma {:induction false} RangeIs(parts: seq<Part>)
    ensures PageMin(parts) == None <==> forall k :: 0 <= k < |parts| ==> parts[k].page == None
    ensures PageMax(parts) == None <==> PageMin(parts) == None
    ensures PageMin(parts).Some? ==> HasPage(parts, PageMin(parts).value) && HasPage(parts, PageMax(parts).value)
    ensures forall k :: 0 <= k < |parts| && parts[k].page.Some? ==>
              PageMin(parts).Some? && PageMax(parts).Some? && PageMin(parts).value <= parts[k].page.value <= PageMax(parts).value
  {
    if parts != [] {
      var n := |parts| - 1;
      RangeIs(parts[..n]);
      assert forall page :: HasPage(parts[..n], page) ==> HasPage(parts, page) by {
        forall page | HasPage(parts[..n], page) ensures HasPage(parts, page) {
          var k :| 0 <= k < n && parts[..n][k].page == Some(page);
          assert parts[k].page == Some(page);
        }
      }
      assert parts[n].page.Some? ==> HasPage(parts, parts[n].page.value);
      assert forall k :: 0 <= k < n ==> parts[k] == parts[..n][k];
    }
  }

  ghost predicate HasPage(parts: seq<Part>, page: int) {
    exists k :: 0 <= k < |parts| && parts[k].page == Some(page)
  }
}
