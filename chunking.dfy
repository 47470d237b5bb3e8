/** `DocumentService.chunk_text`: overlapping windows over a text, each
    window end pulled back to just after a sentence terminator found near the
    boundary, each window stripped and kept when non-empty; and the
    chunk-and-metadata part of `process_and_embed_document`.

    The terminator scan of the source starts at index `end` itself, so a
    window can take one character more than `chunk_size`. `Scan` selects the
    scan as written (`AsWritten`, starting at `end`) or the evidently intended
    one (`Corrected`, starting at `end - 1`). */
module Chunking {
  import opened Values
  import opened Text

  datatype Scan = AsWritten | Corrected

  function Max(a: int, b: int): int { if a >= b then a else b }
  function Min(a: int, b: int): int { if a <= b then a else b }

  /** A character the scan breaks after: '.', '!', '?' or a newline. */
  predicate IsTerminator(c: char) {
    c == '.' || c == '!' || c == '?' || c == '\n'
  }

  /** Parameters under which every window moves `start` forward: a window
      ends at least `Max(chunk_size // 2, chunk_size - 100) + 2` characters
      after its start when the scan breaks, and `chunk_size` after it
      otherwise; the overlap must stay below both. */
  predicate ValidParams(chunkSize: int, overlap: int) {
    1 <= chunkSize && overlap < chunkSize && overlap < Max(chunkSize / 2, chunkSize - 100) + 2
  }

  /** The extra character a window may take beyond `chunk_size`. */
  function Slack(scan: Scan): nat {
    if scan == AsWritten then 1 else 0
  }

  /** No terminator in `text(lo..top]`. */
  predicate NoTerminatorIn(text: string, lo: int, top: int)
    requires top < |text|
  {
    forall j :: lo < j <= top && 0 <= j ==> !IsTerminator(text[j])
  }

  /** `i` is the highest index in `(lo, top]` holding a terminator. */
  predicate LastTerminatorAt(text: string, lo: int, top: int, i: int)
    requires top < |text|
  {
    lo < i <= top && 0 <= i && IsTerminator(text[i]) && NoTerminatorIn(text, i, top)
  }

  /** The highest index in `(lo, top]` holding a terminator. */
  function LastTerminator(text: string, lo: int, top: int): (r: Option<nat>)
    requires top < |text|
    requires 0 <= lo
    ensures r.Some? ==> LastTerminatorAt(text, lo, top, r.value)
    ensures r.None? ==> NoTerminatorIn(text, lo, top)
    decreases top - lo
  {
    if top <= lo then None
    else if IsTerminator(text[top]) then Some(top)
    else LastTerminator(text, lo, top - 1)
  }

  /** The lower bound of the scan: `max(start + chunk_size // 2, end - 100)`. */
  function ScanFloor(start: int, chunkSize: int): int {
    Max(start + chunkSize / 2, start + chunkSize - 100)
  }

  /** The first index the scan looks at. */
  function ScanTop(start: int, chunkSize: int, scan: Scan): int {
    if scan == AsWritten then start + chunkSize else start + chunkSize - 1
  }

  /** Where the window starting at `start` ends (exclusive, possibly past the
      end of the text). */
  function WindowEnd(text: string, start: nat, chunkSize: int, scan: Scan): (e: int)
    requires 1 <= chunkSize
    ensures e <= start + chunkSize + Slack(scan)
    ensures e == start + chunkSize || ScanFloor(start, chunkSize) + 2 <= e
  {
    var end := start + chunkSize;
    if end < |text| then
      match LastTerminator(text, ScanFloor(start, chunkSize), ScanTop(start, chunkSize, scan))
      case Some(i) => i + 1
      case None => end
    else end
  }

  /** The scan stops at the last terminator in its range, and a window with
      no terminator in range, or one reaching the end of the text, is
      `chunk_size` wide. */
  lemma WindowEndBreaks(text: string, start: nat, chunkSize: int, scan: Scan)
    requires 1 <= chunkSize
    ensures var e := WindowEnd(text, start, chunkSize, scan);
            (start + chunkSize >= |text| ==> e == start + chunkSize)
            && (start + chunkSize < |text| && NoTerminatorIn(text, ScanFloor(start, chunkSize), ScanTop(start, chunkSize, scan))
                ==> e == start + chunkSize)
            && (start + chunkSize < |text| ==>
                  forall i :: LastTerminatorAt(text, ScanFloor(start, chunkSize), ScanTop(start, chunkSize, scan), i)
                              ==> e == i + 1)
  {
  }

  /** A window `text[lo:hi]`; `hi` may pass the end of the text. */
  datatype Window = Window(lo: nat, hi: int)

  /** Each window starts `overlap` characters before the previous one ends,
      and strictly after the previous one starts. */
  predicate Chained(ws: seq<Window>, overlap: int) {
    |ws| <= 1 || (ws[1].lo == ws[0].hi - overlap && ws[0].lo < ws[1].lo && Chained(ws[1..], overlap))
  }

  /** The windows of the `while start < len(text)` loop from `start` on. */
  function WindowsFrom(text: string, start: nat, chunkSize: int, overlap: int, scan: Scan): seq<Window>
    requires ValidParams(chunkSize, overlap)
    decreases |text| - start
  {
    if start >= |text| then []
    else
      var end := WindowEnd(text, start, chunkSize, scan);
      [Window(start, end)] + WindowsFrom(text, end - overlap, chunkSize, overlap, scan)
  }

  /** Every window starts inside the text, at or after `start`, and is
      no wider than `chunk_size` (one more with the scan as written). */
  lemma {:induction false} WindowsWithin(text: string, start: nat, chunkSize: int, overlap: int, scan: Scan)
    requires ValidParams(chunkSize, overlap)
    ensures forall w :: w in WindowsFrom(text, start, chunkSize, overlap, scan) ==>
              start <= w.lo < |text| && w.lo < w.hi <= w.lo + chunkSize + Slack(scan)
    decreases |text| - start
  {
    if start < |text| {
      var end := WindowEnd(text, start, chunkSize, scan);
      WindowsWithin(text, end - overlap, chunkSize, overlap, scan);
    }
  }

  /** Each window starts `overlap` characters before the previous one ends,
      and strictly after the previous one starts. */
  lemma {:induction false} WindowsChained(text: string, start: nat, chunkSize: int, overlap: int, scan: Scan)
    requires ValidParams(chunkSize, overlap)
    ensures Chained(WindowsFrom(text, start, chunkSize, overlap, scan), overlap)
    decreases |text| - start
  {
    if start < |text| {
      var end := WindowEnd(text, start, chunkSize, scan);
      var rest := WindowsFrom(text, end - overlap, chunkSize, overlap, scan);
      WindowsChained(text, end - overlap, chunkSize, overlap, scan);
      var ws := WindowsFrom(text, start, chunkSize, overlap, scan);
      assert ws[1..] == rest;
      if rest != [] {
        assert ws[1] == rest[0] == Window(end - overlap, WindowEnd(text, end - overlap, chunkSize, scan));
      }
    }
  }

  /** Chained windows start in strictly increasing order. */
  lemma {:induction false} ChainedIncreasing(ws: seq<Window>, overlap: int)
    requires Chained(ws, overlap)
    ensures forall k, m :: 0 <= k < m < |ws| ==> ws[k].lo < ws[m].lo
  {
    if |ws| > 1 {
      ChainedIncreasing(ws[1..], overlap);
      forall k, m | 0 <= k < m < |ws| ensures ws[k].lo < ws[m].lo {
        assert ws[m] == ws[1..][m - 1];
        if k > 0 {
          assert ws[k] == ws[1..][k - 1];
        } else if m > 1 {
          assert ws[1] == ws[1..][0];
        }
      }
    }
  }

  /** With a non-negative overlap the last window reaches the end of the
      text. */
  lemma {:induction false} WindowsReachEnd(text: string, start: nat, chunkSize: int, overlap: int, scan: Scan)
    requires ValidParams(chunkSize, overlap) && 0 <= overlap && start < |text|
    ensures var ws := WindowsFrom(text, start, chunkSize, overlap, scan);
            ws != [] && ws[0].lo == start && ws[|ws| - 1].hi >= |text|
    decreases |text| - start
  {
    var end := WindowEnd(text, start, chunkSize, scan);
    var ws := WindowsFrom(text, start, chunkSize, overlap, scan);
    if end - overlap < |text| {
      WindowsReachEnd(text, end - overlap, chunkSize, overlap, scan);
      var rest := WindowsFrom(text, end - overlap, chunkSize, overlap, scan);
      assert ws[|ws| - 1] == rest[|rest| - 1];
    }
  }

  /** `text[start:end].strip()` for a window. */
  function Piece(text: string, w: Window): string {
    var lo := Min(w.lo, |text|);
    Strip(text[lo..Max(lo, Min(w.hi, |text|))], IsPySpace)
  }

  /** `[p]` when `p` is non-empty, nothing otherwise (`if chunk:`). */
  function Kept(p: string): seq<string> {
    if p != [] then [p] else []
  }

  /** The non-empty pieces of the windows, in window order. */
  function PiecesOf(text: string, ws: seq<Window>): seq<string> {
    if ws == [] then []
    else
      var p := Piece(text, ws[0]);
      Kept(p) + PiecesOf(text, ws[1..])
  }

  /** Every piece kept is the non-empty piece of one of the windows. */
  lemma {:induction false} PiecesFrom(text: string, ws: seq<Window>, c: string)
    requires c in PiecesOf(text, ws)
    ensures c != [] && exists w :: w in ws && c == Piece(text, w)
  {
    var p := Piece(text, ws[0]);
    if p == [] || c != p {
      PiecesFrom(text, ws[1..], c);
      var w :| w in ws[1..] && c == Piece(text, w);
      assert w in ws;
    }
  }

  /** What `chunk_text(text, chunk_size, overlap)` returns. */
  function Chunks(text: string, chunkSize: int, overlap: int, scan: Scan): seq<string>
    requires ValidParams(chunkSize, overlap)
  {
    if |text| <= chunkSize then [text]
    else PiecesOf(text, WindowsFrom(text, 0, chunkSize, overlap, scan))
  }

  /** `chunk_text(text, chunk_size, overlap)`. */
  method ChunkText(text: string, chunkSize: int, overlap: int, scan: Scan) returns (chunks: seq<string>)
    requires ValidParams(chunkSize, overlap)
    ensures chunks == Chunks(text, chunkSize, overlap, scan)
    ensures |text| <= chunkSize ==> chunks == [text]
  {
    if |text| <= chunkSize {
      return [text];
    }
    chunks := CollectChunks(text, chunkSize, overlap, scan, 0);
  }

  /** The `while start < len(text)` loop, entered at `start0`. */
  method CollectChunks(text: string, chunkSize: int, overlap: int, scan: Scan, start0: nat)
    returns (chunks: seq<string>)
    requires ValidParams(chunkSize, overlap)
    ensures chunks == PiecesOf(text, WindowsFrom(text, start0, chunkSize, overlap, scan))
  {
    chunks := [];
    var start := start0;
    while start < |text|
      invariant chunks + PiecesOf(text, WindowsFrom(text, start, chunkSize, overlap, scan))
                == PiecesOf(text, WindowsFrom(text, start0, chunkSize, overlap, scan))
      decreases |text| - start
    {
      start, chunks := NextChunk(text, chunkSize, overlap, scan, start, chunks);
    }
  }

  /** The body of the loop: one window, its stripped text appended when
      non-empty, and `start = end - overlap`. */
  method NextChunk(text: string, chunkSize: int, overlap: int, scan: Scan, start: nat, chunks: seq<string>)
    returns (next: nat, chunks': seq<string>)
    requires ValidParams(chunkSize, overlap) && start < |text|
    ensures start < next
    ensures chunks' + PiecesOf(text, WindowsFrom(text, next, chunkSize, overlap, scan))
            == chunks + PiecesOf(text, WindowsFrom(text, start, chunkSize, overlap, scan))
  {
    var end := FindWindowEnd(text, start, chunkSize, scan);
    var chunk := Strip(text[start..Min(end, |text|)], IsPySpace);
    chunks' := chunks;
    if chunk != [] {
      chunks' := chunks' + [chunk];
    }
    assert chunks' == chunks + Kept(chunk);
    next := end - overlap;
    NextChunkStep(text, start, chunkSize, overlap, scan, chunks, end, chunk, chunks', next);
  }

  /** What one pass of the loop keeps: the chunks collected so far followed
      by the pieces of the remaining windows do not change. */
  lemma NextChunkStep(text: string, start: nat, chunkSize: int, overlap: int, scan: Scan, chunks: seq<string>,
                      end: int, chunk: string, chunks': seq<string>, next: int)
    requires ValidParams(chunkSize, overlap) && start < |text|
    requires end == WindowEnd(text, start, chunkSize, scan)
    requires chunk == Strip(text[start..Min(end, |text|)], IsPySpace)
    requires chunks' == chunks + Kept(chunk)
    requires next == end - overlap
    ensures start < next
    ensures chunks' + PiecesOf(text, WindowsFrom(text, next, chunkSize, overlap, scan))
            == chunks + PiecesOf(text, WindowsFrom(text, start, chunkSize, overlap, scan))
  {
    PiecesStep(text, start, chunkSize, overlap, scan, end, chunk, next);
    AppendKept(chunks, chunk, chunks', PiecesOf(text, WindowsFrom(text, next, chunkSize, overlap, scan)));
  }

  /** One pass of the loop: the piece of the window at `start`, then the
      windows from `end - overlap`. */
  lemma PiecesStep(text: string, start: nat, chunkSize: int, overlap: int, scan: Scan, end: int, chunk: string, next: int)
    requires ValidParams(chunkSize, overlap) && start < |text|
    requires end == WindowEnd(text, start, chunkSize, scan)
    requires chunk == Strip(text[start..Min(end, |text|)], IsPySpace)
    requires next == end - overlap
    ensures start < next
    ensures PiecesOf(text, WindowsFrom(text, start, chunkSize, overlap, scan))
            == Kept(chunk) + PiecesOf(text, WindowsFrom(text, next, chunkSize, overlap, scan))
  {
    var ws := WindowsFrom(text, start, chunkSize, overlap, scan);
    assert ws[1..] == WindowsFrom(text, next, chunkSize, overlap, scan);
    assert Piece(text, ws[0]) == chunk;
  }

  /** Appending a kept chunk and then the rest is appending both at once. */
  lemma AppendKept(chunks: seq<string>, chunk: string, chunks': seq<string>, later: seq<string>)
    requires chunks' == chunks + Kept(chunk)
    ensures chunks' + later == chunks + (Kept(chunk) + later)
  {
  }

  /** The window end of one pass: `end = start + chunk_size`, and when that
      is inside the text the backward scan for a terminator. */
  method FindWindowEnd(text: string, start: nat, chunkSize: int, scan: Scan) returns (end: int)
    requires 1 <= chunkSize
    ensures end == WindowEnd(text, start, chunkSize, scan)
  {
    end := start + chunkSize;
    if end < |text| {
      var floor := Max(start + chunkSize / 2, end - 100);
      var i := if scan == AsWritten then end else end - 1;
      while i > floor
        invariant floor <= i <= ScanTop(start, chunkSize, scan)
        invariant NoTerminatorIn(text, i, ScanTop(start, chunkSize, scan))
        invariant end == start + chunkSize
      {
        if IsTerminator(text[i]) {
          end := i + 1;
          return;
        }
        i := i - 1;
      }
    }
  }

  /** Chunks of a text longer than `chunk_size` are non-empty and stripped,
      and at most `chunk_size` long (one more with the scan as written). */
  lemma ChunksShape(text: string, chunkSize: int, overlap: int, scan: Scan)
    requires ValidParams(chunkSize, overlap) && |text| > chunkSize
    ensures forall c :: c in Chunks(text, chunkSize, overlap, scan) ==>
              c != [] && !IsPySpace(c[0]) && !IsPySpace(c[|c| - 1]) && |c| <= chunkSize + Slack(scan)
  {
    var ws := WindowsFrom(text, 0, chunkSize, overlap, scan);
    WindowsWithin(text, 0, chunkSize, overlap, scan);
    forall c | c in PiecesOf(text, ws)
      ensures c != [] && !IsPySpace(c[0]) && !IsPySpace(c[|c| - 1]) && |c| <= chunkSize + Slack(scan)
    {
      PiecesFrom(text, ws, c);
    }
  }

  /** Some window contains index `idx`. */
  predicate Covers(ws: seq<Window>, idx: int) {
    exists k :: 0 <= k < |ws| && ws[k].lo <= idx < ws[k].hi
  }

  /** With a non-negative overlap, consecutive windows leave no gap, so the
      windows cover every index of the text from `start` on. */
  lemma {:induction false} WindowsCover(text: string, start: nat, chunkSize: int, overlap: int, scan: Scan, idx: int)
    requires ValidParams(chunkSize, overlap) && 0 <= overlap
    requires start <= idx < |text|
    ensures Covers(WindowsFrom(text, start, chunkSize, overlap, scan), idx)
    decreases |text| - start
  {
    var ws := WindowsFrom(text, start, chunkSize, overlap, scan);
    var end := WindowEnd(text, start, chunkSize, scan);
    if idx < end {
      assert ws[0].lo <= idx < ws[0].hi;
    } else {
      var rest := WindowsFrom(text, end - overlap, chunkSize, overlap, scan);
      assert ws == [Window(start, end)] + rest;
      WindowsCover(text, end - overlap, chunkSize, overlap, scan, idx);
      var k :| 0 <= k < |rest| && rest[k].lo <= idx < rest[k].hi;
      assert ws[k + 1] == rest[k];
      assert ws[k + 1].lo <= idx < ws[k + 1].hi;
    }
  }

  /** The scan as written lets a chunk take `chunk_size + 1` characters:
      with a terminator exactly at index `chunk_size`, the first chunk of
      "aaaaaaaaaa.b" at size 10 is "aaaaaaaaaa.". */
  lemma ChunkOverrun()
    ensures Chunks("aaaaaaaaaa.b", 10, 0, AsWritten)[0] == "aaaaaaaaaa."
    ensures |Chunks("aaaaaaaaaa.b", 10, 0, AsWritten)[0]| == 11
  {
    var text := "aaaaaaaaaa.b";
    assert IsTerminator(text[10]);
    assert WindowEnd(text, 0, 10, AsWritten) == 11;
    var ws := WindowsFrom(text, 0, 10, 0, AsWritten);
    assert ws[0] == Window(0, 11);
    assert text[0..11] == "aaaaaaaaaa.";
    assert Piece(text, ws[0]) == "aaaaaaaaaa.";
  }

  /** The corrected scan keeps every chunk within `chunk_size`. */
  lemma ChunksWithinSize(text: string, chunkSize: int, overlap: int)
    requires ValidParams(chunkSize, overlap) && |text| > chunkSize
    ensures forall c :: c in Chunks(text, chunkSize, overlap, Corrected) ==> |c| <= chunkSize
  {
    ChunksShape(text, chunkSize, overlap, Corrected);
  }

  /** One record of `metadatas`. */
  datatype Metadata = Metadata(filename: string, chunkIndex: nat, chunkSize: nat, processedDate: string)

  /** The loop `for i, chunk in enumerate(chunks)` building `metadatas`;
      `clock(i)` is the timestamp read on pass `i`. */
  method ChunkMetadata(chunks: seq<string>, filename: string, clock: nat -> string) returns (metadatas: seq<Metadata>)
    ensures |metadatas| == |chunks|
    ensures forall i :: 0 <= i < |chunks| ==>
              metadatas[i].filename == filename && metadatas[i].chunkIndex == i
              && metadatas[i].chunkSize == |chunks[i]| && metadatas[i].processedDate == clock(i)
  {
    metadatas := [];
    for i := 0 to |chunks|
      invariant |metadatas| == i
      invariant forall k :: 0 <= k < i ==> metadatas[k] == Metadata(filename, k, |chunks[k]|, clock(k))
    {
      metadatas := metadatas + [Metadata(filename, i, |chunks[i]|, clock(i))];
    }
  }

  /** What `extract_text_from_pdf` returned. */
  datatype Extraction =
    | Extracted(fullText: string, totalPages: nat, totalCharacters: nat)
    | ExtractionFailed(error: string)

  /** What `process_and_embed_document` returns. */
  datatype ProcessResult =
    | NotExtracted(extraction: Extraction)
    | Embedded(filename: string, collectionName: string, totalChunks: nat, documentIds: seq<string>,
               embeddingProvider: string, totalPages: nat, totalCharacters: nat)
    | EmbeddingFailed(error: string)

  /** The vector store: document ids for the chunks, or the text of the exception. */
  type DocumentStore = (string, seq<string>, seq<Metadata>, string) -> Result<seq<string>, string>

  /** `process_and_embed_document` after the PDF was read: a failed
      extraction comes back unchanged; a missing collection name is replaced
      by "doc_" and the first 8 hex digits of a fresh uuid (`freshHex`, the
      32 lower-case hex digits of `uuid4().hex`). The
      chunk size is passed on, the overlap stays at its default of 200, and
      the chunks are cut with the terminator scan as written, so each is at
      most `chunk_size + 1` characters long. */
  method ProcessAndEmbed(extraction: Extraction, filename: string, collectionName: Option<string>,
                         embeddingProvider: string, chunkSize: int, freshHex: string,
                         clock: nat -> string, store: DocumentStore)
    returns (r: ProcessResult, ghost chunks: seq<string>, ghost metadatas: seq<Metadata>)
    requires ValidParams(chunkSize, 200)
    requires |freshHex| == 32 && forall i :: 0 <= i < |freshHex| ==> freshHex[i] in "0123456789abcdef"
    ensures extraction.ExtractionFailed? ==> r == NotExtracted(extraction)
    ensures extraction.Extracted? ==>
              var name := if collectionName.None? || collectionName.value == "" then "doc_" + freshHex[..8]
                          else collectionName.value;
              chunks == Chunks(extraction.fullText, chunkSize, 200, AsWritten)
              && (forall i :: 0 <= i < |chunks| ==> |chunks[i]| <= chunkSize + 1)
              && |metadatas| == |chunks|
              && (forall i :: 0 <= i < |chunks| ==> metadatas[i] == Metadata(filename, i, |chunks[i]|, clock(i)))
              && match store(name, chunks, metadatas, embeddingProvider)
                 case Ok(ids) => r == Embedded(filename, name, |chunks|, ids, embeddingProvider,
                                               extraction.totalPages, extraction.totalCharacters)
                 case Err(e) => r == EmbeddingFailed("Error creating embeddings: " + e)
  {
    chunks, metadatas := [], [];
    if extraction.ExtractionFailed? {
      return NotExtracted(extraction), chunks, metadatas;
    }
    var name := if collectionName.None? || collectionName.value == "" then "doc_" + freshHex[..8]
                else collectionName.value;
    var cs := ChunkText(extraction.fullText, chunkSize, 200, AsWritten);
    if |extraction.fullText| > chunkSize {
      ChunksShape(extraction.fullText, chunkSize, 200, AsWritten);
    }
    var ms := ChunkMetadata(cs, filename, clock);
    chunks, metadatas := cs, ms;
    match store(name, cs, ms, embeddingProvider)
    case Ok(ids) =>
      r := Embedded(filename, name, |cs|, ids, embeddingProvider, extraction.totalPages, extraction.totalCharacters);
    case Err(e) =>
      r := EmbeddingFailed("Error creating embeddings: " + e);
  }
}
