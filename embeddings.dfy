/**
 * `EmbeddingService` (app/lib/embeddings.ts): splitting a document into
 * overlapping chunks, and ranking scored chunks against a query. Embedding
 * vectors and the similarity of two of them are inputs.
 */
module Embeddings {
  import opened JsText

  const DefaultChunkSize := 1000
  const DefaultOverlap := 200
  const DefaultLimit := 5

  function Min(a: int, b: int): int { if a <= b then a else b }

  /** The chunks written one after another. */
  function Concat(parts: seq<string>): string {
    if parts == [] then [] else parts[0] + Concat(parts[1..])
  }

  // ---------------------------------------------------------------------------
  // chunkText as written
  // ---------------------------------------------------------------------------

  /** The value of `start` after `n` passes of the loop body, had the loop kept going. */
  function StartAfter(text: string, chunkSize: int, overlap: int, n: nat): int {
    if n == 0 then 0
    else Min(StartAfter(text, chunkSize, overlap, n - 1) + chunkSize, |text|) - overlap
  }

  /** The chunk the loop pushes on its pass number `n` (from 0). */
  function PieceAt(text: string, chunkSize: int, overlap: int, n: nat): string {
    var start := StartAfter(text, chunkSize, overlap, n);
    JsSlice(text, start, Min(start + chunkSize, |text|))
  }

  /** The chunks pushed by the first `n` passes. */
  function Pieces(text: string, chunkSize: int, overlap: int, n: nat): (pieces: seq<string>)
    ensures |pieces| == n
  {
    if n == 0 then [] else Pieces(text, chunkSize, overlap, n - 1) + [PieceAt(text, chunkSize, overlap, n - 1)]
  }

  /** The `k`-th chunk pushed is the slice taken at the `k`-th start. */
  lemma {:induction false} PiecesIndex(text: string, chunkSize: int, overlap: int, n: nat, k: nat)
    requires k < n
    ensures Pieces(text, chunkSize, overlap, n)[k] == PieceAt(text, chunkSize, overlap, k)
  {
    if k < n - 1 {
      PiecesIndex(text, chunkSize, overlap, n - 1, k);
    }
  }

  /** How many passes a text needs with chunks of `chunkSize` and no overlap. */
  function PassesNeeded(text: string, chunkSize: int): nat
    requires chunkSize > 0
  {
    (|text| + chunkSize - 1) / chunkSize
  }

  /**
   * `chunkText(text, chunkSize, overlap)` as written, run for at most `budget`
   * passes: `exited` tells whether the loop left by its own test within the budget.
   * With a positive overlap and a non-empty text it never does, whatever the budget.
   */
  method ChunkTextAsWritten(text: string, chunkSize: int, overlap: int, budget: nat)
    returns (chunks: seq<string>, exited: bool)
    ensures |chunks| <= budget
    ensures chunks == Pieces(text, chunkSize, overlap, |chunks|)
    ensures forall k :: 0 <= k < |chunks| ==> StartAfter(text, chunkSize, overlap, k) < |text|
    ensures exited <==> StartAfter(text, chunkSize, overlap, |chunks|) >= |text|
    ensures !exited ==> |chunks| == budget
    ensures overlap > 0 && |text| > 0 ==> !exited && |chunks| == budget
    ensures overlap == 0 && chunkSize > 0 && budget >= PassesNeeded(text, chunkSize) ==>
      exited && Concat(chunks) == text
  {
    chunks := [];
    var start := 0;
    exited := start >= |text|;
    while !exited && |chunks| < budget
      invariant |chunks| <= budget
      invariant start == StartAfter(text, chunkSize, overlap, |chunks|)
      invariant chunks == Pieces(text, chunkSize, overlap, |chunks|)
      invariant StartsInside(text, chunkSize, overlap, |chunks|)
      invariant exited <==> start >= |text|
      decreases budget - |chunks|
    {
      var end := Min(start + chunkSize, |text|);
      StartsInsideStep(text, chunkSize, overlap, |chunks|);
      PiecesStep(text, chunkSize, overlap, |chunks|);
      chunks := chunks + [JsSlice(text, start, end)];
      start := end - overlap;
      exited := start >= |text|;
    }
    AsWrittenOutcome(text, chunkSize, overlap, budget, |chunks|);
  }

  /** Pass `n` pushes the slice at its start and moves on by `chunkSize - overlap`, capped at the end. */
  lemma PiecesStep(text: string, chunkSize: int, overlap: int, n: nat)
    ensures Pieces(text, chunkSize, overlap, n + 1)
         == Pieces(text, chunkSize, overlap, n)
            + [JsSlice(text, StartAfter(text, chunkSize, overlap, n),
                       Min(StartAfter(text, chunkSize, overlap, n) + chunkSize, |text|))]
    ensures StartAfter(text, chunkSize, overlap, n + 1)
         == Min(StartAfter(text, chunkSize, overlap, n) + chunkSize, |text|) - overlap
  {
  }

  /** The loop test held on each of the first `n` passes. */
  ghost predicate StartsInside(text: string, chunkSize: int, overlap: int, n: nat) {
    forall k :: 0 <= k < n ==> StartAfter(text, chunkSize, overlap, k) < |text|
  }

  lemma StartsInsideStep(text: string, chunkSize: int, overlap: int, n: nat)
    requires StartsInside(text, chunkSize, overlap, n) && StartAfter(text, chunkSize, overlap, n) < |text|
    ensures StartsInside(text, chunkSize, overlap, n + 1)
  {
  }

  /** How the loop as written ends after `n` passes, by the two cases of `overlap`. */
  lemma AsWrittenOutcome(text: string, chunkSize: int, overlap: int, budget: nat, n: nat)
    requires n <= budget
    requires forall k :: 0 <= k < n ==> StartAfter(text, chunkSize, overlap, k) < |text|
    requires StartAfter(text, chunkSize, overlap, n) < |text| ==> n == budget
    ensures overlap > 0 && |text| > 0 ==> StartAfter(text, chunkSize, overlap, n) < |text| && n == budget
    ensures overlap == 0 && chunkSize > 0 && budget >= PassesNeeded(text, chunkSize) ==>
      StartAfter(text, chunkSize, overlap, n) >= |text| && Concat(Pieces(text, chunkSize, overlap, n)) == text
  {
    if overlap > 0 && |text| > 0 {
      NeverExits(text, chunkSize, overlap, n);
    }
    if overlap == 0 && chunkSize > 0 && budget >= PassesNeeded(text, chunkSize) {
      NoOverlapPasses(text, chunkSize, n);
      if n > 0 {
        NoOverlapPasses(text, chunkSize, n - 1);
      }
      assert n == PassesNeeded(text, chunkSize);
      NoOverlapCovers(text, chunkSize);
    }
  }

  /** With a positive overlap, `start` stays below the length of a non-empty text forever. */
  lemma NeverExits(text: string, chunkSize: int, overlap: int, n: nat)
    requires overlap > 0 && |text| > 0
    ensures StartAfter(text, chunkSize, overlap, n) < |text|
  {
  }

  /**
   * Once a chunk reaches the end of the text, and the overlap is no larger than a
   * chunk, every later pass starts at `|text| - overlap` and pushes the same tail.
   */
  lemma {:induction false} StuckAtTail(text: string, chunkSize: int, overlap: int, n: nat, m: nat)
    requires 0 < overlap <= chunkSize
    requires StartAfter(text, chunkSize, overlap, n) + chunkSize >= |text|
    requires n < m
    ensures StartAfter(text, chunkSize, overlap, m) == |text| - overlap
    ensures PieceAt(text, chunkSize, overlap, m) == JsSlice(text, |text| - overlap, |text|)
    decreases m
  {
    if m - 1 > n {
      StuckAtTail(text, chunkSize, overlap, n, m - 1);
    }
    assert StartAfter(text, chunkSize, overlap, m)
        == Min(StartAfter(text, chunkSize, overlap, m - 1) + chunkSize, |text|) - overlap;
    assert Min(StartAfter(text, chunkSize, overlap, m) + chunkSize, |text|) == |text|;
  }

  /** With the default sizes a short text is pushed whole, again and again. */
  lemma DefaultsRepeatShortText()
    ensures Pieces("abc", DefaultChunkSize, DefaultOverlap, 3) == ["abc", "abc", "abc"]
    ensures StartAfter("abc", DefaultChunkSize, DefaultOverlap, 3) < 3
  {
    assert StartAfter("abc", 1000, 200, 1) == -197;
    assert StartAfter("abc", 1000, 200, 2) == -197;
    assert PieceAt("abc", 1000, 200, 0) == "abc";
    assert PieceAt("abc", 1000, 200, 1) == "abc";
    assert PieceAt("abc", 1000, 200, 2) == "abc";
  }

  /** Without overlap, pass `k` starts at `k * chunkSize`, capped at the length. */
  lemma {:induction false} NoOverlapStart(text: string, chunkSize: int, k: nat)
    requires chunkSize > 0
    ensures StartAfter(text, chunkSize, 0, k) == Min(k * chunkSize, |text|)
  {
    if k > 0 {
      NoOverlapStart(text, chunkSize, k - 1);
      assert (k - 1) * chunkSize + chunkSize == k * chunkSize;
    }
  }

  /** Without overlap the loop is entered exactly on the first `PassesNeeded` passes. */
  lemma NoOverlapPasses(text: string, chunkSize: int, k: nat)
    requires chunkSize > 0
    ensures StartAfter(text, chunkSize, 0, k) < |text| <==> k < PassesNeeded(text, chunkSize)
  {
    NoOverlapStart(text, chunkSize, k);
    CeilingDivision(|text|, chunkSize, k);
  }

  /** `k` whole blocks of `size` fall short of `len` exactly when `k` is below `ceil(len / size)`. */
  lemma CeilingDivision(len: nat, size: int, k: nat)
    requires size > 0
    ensures k * size < len <==> k < (len + size - 1) / size
  {
    var n := (len + size - 1) / size;
    var r := (len + size - 1) % size;
    assert n * size + r == len + size - 1;
    if k < n {
      MultiplyMonotone(k, n - 1, size);
      assert (n - 1) * size == n * size - size;
    } else {
      MultiplyMonotone(n, k, size);
    }
  }

  lemma MultiplyMonotone(a: int, b: int, c: int)
    requires a <= b && 0 < c
    ensures a * c <= b * c
  {
    assert b * c - a * c == (b - a) * c;
  }

  /** Without overlap, pass `k` pushes the `k`-th block of `chunkSize` characters. */
  lemma NoOverlapPiece(text: string, chunkSize: int, k: nat)
    requires chunkSize > 0 && k * chunkSize < |text|
    ensures PieceAt(text, chunkSize, 0, k) == text[k * chunkSize..Min(k * chunkSize + chunkSize, |text|)]
  {
    NoOverlapStart(text, chunkSize, k);
  }

  /** The chunks of the first `k` passes written together are the text up to the next start. */
  lemma {:induction false} NoOverlapPrefix(text: string, chunkSize: int, k: nat)
    requires chunkSize > 0
    ensures 0 <= StartAfter(text, chunkSize, 0, k) <= |text|
    ensures Concat(Pieces(text, chunkSize, 0, k)) == text[..StartAfter(text, chunkSize, 0, k)]
  {
    if k > 0 {
      NoOverlapPrefix(text, chunkSize, k - 1);
      var a := StartAfter(text, chunkSize, 0, k - 1);
      var b := StartAfter(text, chunkSize, 0, k);
      var before := Pieces(text, chunkSize, 0, k - 1);
      var piece := PieceAt(text, chunkSize, 0, k - 1);
      assert b == Min(a + chunkSize, |text|);
      assert piece == JsSlice(text, a, b);
      assert piece == text[a..b];
      assert Pieces(text, chunkSize, 0, k) == before + [piece];
      ConcatSnoc(before, piece);
      assert text[..a] + text[a..b] == text[..b];
    }
  }

  lemma {:induction false} ConcatSnoc(parts: seq<string>, last: string)
    ensures Concat(parts + [last]) == Concat(parts) + last
  {
    if parts != [] {
      assert (parts + [last])[1..] == parts[1..] + [last];
      ConcatSnoc(parts[1..], last);
    }
  }

  /**
   * Without overlap and with positive chunks the loop stops after `PassesNeeded`
   * passes; the chunks written together are the text, and every chunk but the
   * last has exactly `chunkSize` characters.
   */
  lemma NoOverlapCovers(text: string, chunkSize: int)
    requires chunkSize > 0
    ensures StartAfter(text, chunkSize, 0, PassesNeeded(text, chunkSize)) >= |text|
    ensures Concat(Pieces(text, chunkSize, 0, PassesNeeded(text, chunkSize))) == text
    ensures forall k :: 0 <= k < PassesNeeded(text, chunkSize) - 1 ==>
      |Pieces(text, chunkSize, 0, PassesNeeded(text, chunkSize))[k]| == chunkSize
  {
    var n := PassesNeeded(text, chunkSize);
    NoOverlapPasses(text, chunkSize, n);
    NoOverlapPrefix(text, chunkSize, n);
    assert text[..StartAfter(text, chunkSize, 0, n)] == text;
    forall k | 0 <= k < n - 1
      ensures |Pieces(text, chunkSize, 0, n)[k]| == chunkSize
    {
      NoOverlapPasses(text, chunkSize, k + 1);
      NoOverlapStart(text, chunkSize, k + 1);
      assert k * chunkSize + chunkSize == (k + 1) * chunkSize;
      NoOverlapPiece(text, chunkSize, k);
      PiecesIndex(text, chunkSize, 0, n, k);
    }
  }

  // ---------------------------------------------------------------------------
  // chunkText as intended: stop after the chunk that reaches the end
  // ---------------------------------------------------------------------------

  /** The chunks from `start` on: each `chunkSize` long but the last, each the next one's head by `overlap`. */
  function ChunksFrom(text: string, chunkSize: int, overlap: int, start: nat): (chunks: seq<string>)
    requires 0 <= overlap < chunkSize && start <= |text|
    ensures chunks == [] <==> start == |text|
    decreases |text| - start
  {
    if start == |text| then []
    else
      var end := Min(start + chunkSize, |text|);
      [text[start..end]] + (if end == |text| then [] else ChunksFrom(text, chunkSize, overlap, end - overlap))
  }

  /** No chunk is empty or longer than `chunkSize`; all but the last are exactly `chunkSize` long. */
  lemma {:induction false} ChunkLengths(text: string, chunkSize: int, overlap: int, start: nat, k: nat)
    requires 0 <= overlap < chunkSize && start <= |text|
    requires k < |ChunksFrom(text, chunkSize, overlap, start)|
    ensures 0 < |ChunksFrom(text, chunkSize, overlap, start)[k]| <= chunkSize
    ensures k < |ChunksFrom(text, chunkSize, overlap, start)| - 1 ==>
      |ChunksFrom(text, chunkSize, overlap, start)[k]| == chunkSize
    decreases |text| - start
  {
    var end := Min(start + chunkSize, |text|);
    var chunks := ChunksFrom(text, chunkSize, overlap, start);
    if end < |text| {
      var rest := ChunksFrom(text, chunkSize, overlap, end - overlap);
      assert chunks == [text[start..end]] + rest;
      if k > 0 {
        ChunkLengths(text, chunkSize, overlap, end - overlap, k - 1);
        assert chunks[k] == rest[k - 1];
      }
    } else {
      assert chunks == [text[start..end]];
    }
  }

  /** `chunkText` with the exit moved before the step back. */
  method ChunkText(text: string, chunkSize: int, overlap: int) returns (chunks: seq<string>)
    requires 0 <= overlap < chunkSize
    ensures chunks == ChunksFrom(text, chunkSize, overlap, 0)
  {
    chunks := [];
    var start := 0;
    while start < |text|
      invariant 0 <= start <= |text|
      invariant chunks + ChunksFrom(text, chunkSize, overlap, start) == ChunksFrom(text, chunkSize, overlap, 0)
      decreases |text| - start
    {
      var end := Min(start + chunkSize, |text|);
      ChunkTextStep(text, chunkSize, overlap, start, chunks);
      chunks := chunks + [text[start..end]];
      if end == |text| {
        break;
      }
      start := end - overlap;
    }
  }

  /** One pass of the corrected loop keeps `chunks` a prefix of the whole answer, and the last pass completes it. */
  lemma ChunkTextStep(text: string, chunkSize: int, overlap: int, start: nat, chunks: seq<string>)
    requires 0 <= overlap < chunkSize && start < |text|
    requires chunks + ChunksFrom(text, chunkSize, overlap, start) == ChunksFrom(text, chunkSize, overlap, 0)
    ensures var end := Min(start + chunkSize, |text|);
      && (end == |text| ==> chunks + [text[start..end]] == ChunksFrom(text, chunkSize, overlap, 0))
      && (end < |text| ==>
            (end - overlap > start
             && (chunks + [text[start..end]]) + ChunksFrom(text, chunkSize, overlap, end - overlap)
                == ChunksFrom(text, chunkSize, overlap, 0)))
  {
    var end := Min(start + chunkSize, |text|);
    var piece := text[start..end];
    var later := if end == |text| then [] else ChunksFrom(text, chunkSize, overlap, end - overlap);
    assert ChunksFrom(text, chunkSize, overlap, start) == [piece] + later;
    assert (chunks + [piece]) + later == chunks + ([piece] + later);
    if end == |text| {
      assert chunks + [piece] == (chunks + [piece]) + later;
    }
  }

  /** The first chunk, then every later chunk without the `overlap` characters it repeats. */
  function Reassemble(chunks: seq<string>, overlap: nat): string {
    if chunks == [] then [] else chunks[0] + DropOverlaps(chunks[1..], overlap)
  }

  function DropOverlaps(chunks: seq<string>, overlap: nat): string {
    if chunks == [] then []
    else (if overlap <= |chunks[0]| then chunks[0][overlap..] else []) + DropOverlaps(chunks[1..], overlap)
  }

  /** Reassembling the chunks gives back the text they were cut from. */
  lemma {:induction false} ReassembleChunks(text: string, chunkSize: int, overlap: int, start: nat)
    requires 0 <= overlap < chunkSize && start <= |text|
    ensures Reassemble(ChunksFrom(text, chunkSize, overlap, start), overlap) == text[start..]
    decreases |text| - start
  {
    if start < |text| {
      var end := Min(start + chunkSize, |text|);
      var chunks := ChunksFrom(text, chunkSize, overlap, start);
      if end < |text| {
        var rest := ChunksFrom(text, chunkSize, overlap, end - overlap);
        ReassembleChunks(text, chunkSize, overlap, end - overlap);
        assert chunks[1..] == rest;
        assert DropOverlaps(rest, overlap) == Reassemble(rest, overlap)[overlap..];
        assert text[end - overlap..][overlap..] == text[end..];
        assert text[start..end] + text[end..] == text[start..];
      } else {
        assert text[start..end] == text[start..];
        assert chunks == [text[start..]];
      }
    }
  }

  /** The last `overlap` characters of `a` are the first `overlap` characters of `b`. */
  predicate OverlapsNext(a: string, b: string, overlap: nat) {
    overlap <= |a| && overlap <= |b| && a[|a| - overlap..] == b[..overlap]
  }

  /** Consecutive chunks share exactly `overlap` characters. */
  lemma {:induction false} ChunksOverlap(text: string, chunkSize: int, overlap: int, start: nat, k: nat)
    requires 0 <= overlap < chunkSize && start <= |text|
    requires k + 1 < |ChunksFrom(text, chunkSize, overlap, start)|
    ensures OverlapsNext(ChunksFrom(text, chunkSize, overlap, start)[k],
                         ChunksFrom(text, chunkSize, overlap, start)[k + 1], overlap)
    decreases k
  {
    var end := Min(start + chunkSize, |text|);
    var chunks := ChunksFrom(text, chunkSize, overlap, start);
    assert end < |text|;
    var rest := ChunksFrom(text, chunkSize, overlap, end - overlap);
    assert chunks == [text[start..end]] + rest;
    if k > 0 {
      ChunksOverlap(text, chunkSize, overlap, end - overlap, k - 1);
      assert chunks[k] == rest[k - 1] && chunks[k + 1] == rest[k];
    } else {
      var next := Min(end - overlap + chunkSize, |text|);
      assert rest[0] == text[end - overlap..next];
      assert text[start..end][end - start - overlap..] == text[end - overlap..end];
      assert text[end - overlap..next][..overlap] == text[end - overlap..end];
    }
  }

  // ---------------------------------------------------------------------------
  // searchSimilarChunks
  // ---------------------------------------------------------------------------

  datatype DocumentChunk = DocumentChunk(content: string, embedding: seq<real>)
  datatype ScoredChunk = ScoredChunk(content: string, score: real)

  /** `cosineSimilarity`: 0 for vectors of different lengths, else the cosine (an input). */
  function Similarity(a: seq<real>, b: seq<real>, cosine: (seq<real>, seq<real>) -> real): real {
    if |a| != |b| then 0.0 else cosine(a, b)
  }

  /** The `map` step: each chunk's content with its score against the query. */
  function Scored(query: seq<real>, chunks: seq<DocumentChunk>, cosine: (seq<real>, seq<real>) -> real)
    : (scored: seq<ScoredChunk>)
    ensures |scored| == |chunks|
    ensures forall i :: 0 <= i < |chunks| ==>
      scored[i] == ScoredChunk(chunks[i].content, Similarity(query, chunks[i].embedding, cosine))
  {
    seq(|chunks|, i requires 0 <= i < |chunks| =>
      ScoredChunk(chunks[i].content, Similarity(query, chunks[i].embedding, cosine)))
  }

  predicate SortedByScore(s: seq<ScoredChunk>) {
    forall i, j :: 0 <= i < j < |s| ==> s[i].score >= s[j].score
  }

  /** Places `x` after the entries that score higher, before those that score the same or lower. */
  function Insert(x: ScoredChunk, s: seq<ScoredChunk>): seq<ScoredChunk> {
    if s == [] || s[0].score <= x.score then [x] + s else [s[0]] + Insert(x, s[1..])
  }

  /** `sort((a, b) => b.score - a.score)`: a stable sort, highest score first. */
  function SortByScore(s: seq<ScoredChunk>): seq<ScoredChunk> {
    if s == [] then [] else Insert(s[0], SortByScore(s[1..]))
  }

  /** The entries with one given score, in order. */
  function WithScore(s: seq<ScoredChunk>, v: real): seq<ScoredChunk> {
    if s == [] then [] else (if s[0].score == v then [s[0]] else []) + WithScore(s[1..], v)
  }

  /** `searchSimilarChunks(query, chunks, limit)`. */
  function SearchSimilarChunks(query: seq<real>, chunks: seq<DocumentChunk>, limit: int,
                               cosine: (seq<real>, seq<real>) -> real): seq<ScoredChunk> {
    JsSlice(SortByScore(Scored(query, chunks, cosine)), 0, limit)
  }

  lemma {:induction false} InsertKeepsEntries(x: ScoredChunk, s: seq<ScoredChunk>)
    ensures multiset(Insert(x, s)) == multiset(s) + multiset{x}
  {
    if s != [] && s[0].score > x.score {
      InsertKeepsEntries(x, s[1..]);
      assert s == [s[0]] + s[1..];
    }
  }

  lemma {:induction false} InsertSorted(x: ScoredChunk, s: seq<ScoredChunk>)
    requires SortedByScore(s)
    ensures SortedByScore(Insert(x, s))
  {
    if s != [] && s[0].score > x.score {
      InsertSorted(x, s[1..]);
      InsertKeepsEntries(x, s[1..]);
      var r := Insert(x, s[1..]);
      forall j | 0 <= j < |r| ensures s[0].score >= r[j].score {
        assert r[j] in multiset(s[1..]) + multiset{x};
      }
    }
  }

  /** Sorting keeps every entry, as often as it occurs. */
  lemma {:induction false} SortKeepsEntries(s: seq<ScoredChunk>)
    ensures multiset(SortByScore(s)) == multiset(s)
  {
    if s != [] {
      SortKeepsEntries(s[1..]);
      InsertKeepsEntries(s[0], SortByScore(s[1..]));
      assert s == [s[0]] + s[1..];
    }
  }

  /** Sorting puts higher scores first. */
  lemma {:induction false} SortIsSorted(s: seq<ScoredChunk>)
    ensures SortedByScore(SortByScore(s))
  {
    if s != [] {
      SortIsSorted(s[1..]);
      InsertSorted(s[0], SortByScore(s[1..]));
    }
  }

  lemma {:induction false} InsertStable(x: ScoredChunk, s: seq<ScoredChunk>, v: real)
    requires SortedByScore(s)
    ensures WithScore(Insert(x, s), v) == WithScore([x] + s, v)
  {
    if s != [] && s[0].score > x.score {
      InsertStable(x, s[1..], v);
      if x.score == v {
        assert s[0].score != v;
      }
    }
  }

  /** The sort is stable: entries with equal scores keep their input order. */
  lemma {:induction false} SortIsStable(s: seq<ScoredChunk>, v: real)
    ensures WithScore(SortByScore(s), v) == WithScore(s, v)
  {
    if s != [] {
      SortIsStable(s[1..], v);
      SortIsSorted(s[1..]);
      InsertStable(s[0], SortByScore(s[1..]), v);
    }
  }

  lemma SortLength(s: seq<ScoredChunk>)
    ensures |SortByScore(s)| == |s|
  {
    SortKeepsEntries(s);
    assert |multiset(SortByScore(s))| == |multiset(s)|;
  }

  /** The result holds `min(limit, n)` entries. */
  lemma TopCount(query: seq<real>, chunks: seq<DocumentChunk>, limit: int,
                 cosine: (seq<real>, seq<real>) -> real)
    requires limit >= 0
    ensures |SearchSimilarChunks(query, chunks, limit, cosine)| == Min(limit, |chunks|)
  {
    SortLength(Scored(query, chunks, cosine));
  }

  /** With the default limit, at most the five best chunks are returned, and five when there are that many. */
  lemma DefaultLimitTopFive(query: seq<real>, chunks: seq<DocumentChunk>, cosine: (seq<real>, seq<real>) -> real)
    ensures |SearchSimilarChunks(query, chunks, DefaultLimit, cosine)| <= 5
    ensures |chunks| >= 5 ==> |SearchSimilarChunks(query, chunks, DefaultLimit, cosine)| == 5
  {
    TopCount(query, chunks, DefaultLimit, cosine);
  }

  /** The result lists the highest score first. */
  lemma TopSorted(query: seq<real>, chunks: seq<DocumentChunk>, limit: int,
                  cosine: (seq<real>, seq<real>) -> real)
    ensures SortedByScore(SearchSimilarChunks(query, chunks, limit, cosine))
  {
    var sorted := SortByScore(Scored(query, chunks, cosine));
    SortIsSorted(Scored(query, chunks, cosine));
    var top := SearchSimilarChunks(query, chunks, limit, cosine);
    forall i, j | 0 <= i < j < |top| ensures top[i].score >= top[j].score {
      JsSliceFromZero(sorted, limit, i);
      JsSliceFromZero(sorted, limit, j);
    }
  }

  /** Each entry is an input chunk's content with its score against the query. */
  lemma TopFromInput(query: seq<real>, chunks: seq<DocumentChunk>, limit: int,
                     cosine: (seq<real>, seq<real>) -> real, r: ScoredChunk)
    requires r in SearchSimilarChunks(query, chunks, limit, cosine)
    ensures exists i ::
      0 <= i < |chunks| && r == ScoredChunk(chunks[i].content, Similarity(query, chunks[i].embedding, cosine))
  {
    var scored := Scored(query, chunks, cosine);
    var sorted := SortByScore(scored);
    SortKeepsEntries(scored);
    var top := SearchSimilarChunks(query, chunks, limit, cosine);
    var k :| 0 <= k < |top| && top[k] == r;
    JsSliceFromZero(sorted, limit, k);
    assert r in multiset(sorted);
    var i :| 0 <= i < |scored| && scored[i] == r;
  }

  /** In a sorted sequence, nothing after position `n` scores higher than anything before it. */
  lemma PrefixDominates(sorted: seq<ScoredChunk>, n: nat, r: ScoredChunk, y: ScoredChunk)
    requires SortedByScore(sorted) && n <= |sorted|
    requires r in sorted[..n] && y in multiset(sorted) - multiset(sorted[..n])
    ensures y.score <= r.score
  {
    assert sorted == sorted[..n] + sorted[n..];
    assert multiset(sorted) == multiset(sorted[..n]) + multiset(sorted[n..]);
    assert y in multiset(sorted[n..]);
    var j :| 0 <= j < |sorted[n..]| && sorted[n..][j] == y;
    var i :| 0 <= i < n && sorted[..n][i] == r;
    assert sorted[i] == r && sorted[n + j] == y;
  }

  /** No chunk left out scores higher than a chunk kept. */
  lemma TopBeatsRest(query: seq<real>, chunks: seq<DocumentChunk>, limit: int,
                     cosine: (seq<real>, seq<real>) -> real, r: ScoredChunk, y: ScoredChunk)
    requires r in SearchSimilarChunks(query, chunks, limit, cosine)
    requires y in multiset(Scored(query, chunks, cosine)) - multiset(SearchSimilarChunks(query, chunks, limit, cosine))
    ensures y.score <= r.score
  {
    var scored := Scored(query, chunks, cosine);
    var sorted := SortByScore(scored);
    SortKeepsEntries(scored);
    SortIsSorted(scored);
    var top := SearchSimilarChunks(query, chunks, limit, cosine);
    var n := |top|;
    assert top == sorted[..n] by {
      forall k | 0 <= k < n ensures top[k] == sorted[k] {
        JsSliceFromZero(sorted, limit, k);
      }
    }
    PrefixDominates(sorted, n, r, y);
  }
}
