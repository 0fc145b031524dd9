/** `chunk_text`: a sliding window over the extracted text, `chunk_size`
    characters wide, advancing by `chunk_size - overlap`, keeping only
    windows that are not all whitespace. */
module FileHandler {
  import opened Text
  import Seqs

  /** A Python slice bound normalised against length `n`: negative bounds
      count from the end, and bounds are clamped to `0..n`. */
  function SliceBound(i: int, n: nat): (b: nat)
    ensures b <= n
    ensures 0 <= i <= n ==> b == i
  {
    if i < 0 then (if i + n < 0 then 0 else i + n) else if i > n then n else i
  }

  /** Python's `s[i:j]`. */
  function PySlice(s: string, i: int, j: int): (r: string)
    ensures 0 <= i <= j <= |s| ==> r == s[i..j]
  {
    var a := SliceBound(i, |s|);
    var b := SliceBound(j, |s|);
    if a < b then s[a..b] else []
  }

  /** The window `text[w:w + size]`. */
  function Window(text: string, size: int, w: int): string {
    PySlice(text, w, w + size)
  }

  /** The chunks the loop collects from offset `start` on. */
  function ChunksFrom(text: string, size: int, overlap: int, start: int): seq<string>
    requires size > overlap && start >= 0
    decreases |text| - start
  {
    if start >= |text| then []
    else
      var chunk := Window(text, size, start);
      (if !PyBlank(chunk) then [chunk] else []) + ChunksFrom(text, size, overlap, start + size - overlap)
  }

  lemma ChunksFromUnfold(text: string, size: int, overlap: int, start: int)
    requires size > overlap && 0 <= start < |text|
    ensures var chunk := PySlice(text, start, start + size);
            ChunksFrom(text, size, overlap, start)
            == (if !PyBlank(chunk) then [chunk] else []) + ChunksFrom(text, size, overlap, start + size - overlap)
  {
  }

  /** `chunk_text(text, chunk_size, overlap)`. The loop only ends when it
      advances, so callers must pass `chunk_size > overlap` (the defaults are
      1000 and 100). */
  method ChunkText(text: string, chunkSize: int, overlap: int) returns (chunks: seq<string>)
    requires chunkSize > overlap
    ensures chunks == ChunksFrom(text, chunkSize, overlap, 0)
    ensures text == "" ==> chunks == []
  {
    chunks := [];
    var start := 0;
    while start < |text|
      invariant start >= 0
      invariant chunks + ChunksFrom(text, chunkSize, overlap, start) == ChunksFrom(text, chunkSize, overlap, 0)
      decreases |text| - start
    {
      var end := start + chunkSize;
      var chunk := PySlice(text, start, end);
      ChunksFromUnfold(text, chunkSize, overlap, start);
      ghost var rest := ChunksFrom(text, chunkSize, overlap, end - overlap);
      if !PyBlank(chunk) {
        assert ChunksFrom(text, chunkSize, overlap, start) == [chunk] + rest;
        assert (chunks + [chunk]) + rest == chunks + ([chunk] + rest);
        chunks := chunks + [chunk];
      } else {
        assert ChunksFrom(text, chunkSize, overlap, start) == rest;
      }
      start := end - overlap;
    }
  }

  // ---- the windows and the chunks taken from them ------------------------

  /** Every window offset from `start` on: `start`, `start + step`, ... below `n`. */
  function WindowStarts(n: nat, size: int, overlap: int, start: int): seq<int>
    requires size > overlap && start >= 0
    decreases n - start
  {
    if start >= n then [] else [start] + WindowStarts(n, size, overlap, start + size - overlap)
  }

  /** The `k`-th window starts at `start + k * (size - overlap)`. */
  lemma {:induction false} WindowStartsAt(n: nat, size: int, overlap: int, start: int, k: nat)
    requires size > overlap && start >= 0
    requires k < |WindowStarts(n, size, overlap, start)|
    ensures WindowStarts(n, size, overlap, start)[k] == start + k * (size - overlap)
    decreases n - start
  {
    if k > 0 {
      var step := size - overlap;
      WindowStartsAt(n, size, overlap, start + step, k - 1);
      assert (k - 1) * step + step == k * step;
    }
  }

  predicate NotBlankAt(text: string, size: int, w: int) {
    !PyBlank(Window(text, size, w))
  }

  function NotBlank(text: string, size: int): int -> bool {
    w => NotBlankAt(text, size, w)
  }

  /** The offsets of the windows that are kept. */
  function ChunkStarts(text: string, size: int, overlap: int, start: int): seq<int>
    requires size > overlap && start >= 0
  {
    Seqs.Filter(WindowStarts(|text|, size, overlap, start), NotBlank(text, size))
  }

  function Windows(text: string, size: int, ws: seq<int>): (r: seq<string>)
    ensures |r| == |ws|
    ensures forall i :: 0 <= i < |ws| ==> r[i] == Window(text, size, ws[i])
  {
    seq(|ws|, i requires 0 <= i < |ws| => Window(text, size, ws[i]))
  }

  /** The loop's chunks are exactly the non-blank windows, in window order. */
  lemma {:induction false} ChunksAreNonBlankWindows(text: string, size: int, overlap: int, start: int)
    requires size > overlap && start >= 0
    ensures ChunksFrom(text, size, overlap, start) == Windows(text, size, ChunkStarts(text, size, overlap, start))
    decreases |text| - start
  {
    if start < |text| {
      var next := start + size - overlap;
      ChunksAreNonBlankWindows(text, size, overlap, next);
      var ws := WindowStarts(|text|, size, overlap, start);
      assert ws == [start] + WindowStarts(|text|, size, overlap, next);
      assert ws[0] == start && ws[1..] == WindowStarts(|text|, size, overlap, next);
    }
  }

  /** What every chunk is: its window, at an offset `k * (chunk_size - overlap)`
      inside the text, and not all whitespace. */
  lemma ChunkIsWindow(text: string, size: int, overlap: int, i: nat)
    requires size > overlap
    requires i < |ChunksFrom(text, size, overlap, 0)|
    ensures var cs := ChunksFrom(text, size, overlap, 0);
            var ss := ChunkStarts(text, size, overlap, 0);
            && |cs| == |ss|
            && cs[i] == PySlice(text, ss[i], ss[i] + size)
            && !PyBlank(cs[i])
            && ss[i] in WindowStarts(|text|, size, overlap, 0)
            && 0 <= ss[i] < |text|
  {
    ChunksAreNonBlankWindows(text, size, overlap, 0);
    var ss := ChunkStarts(text, size, overlap, 0);
    assert ss[i] in ss;
    Seqs.FilterMembership(WindowStarts(|text|, size, overlap, 0), NotBlank(text, size), ss[i]);
    WindowStartsBounds(|text|, size, overlap, 0);
  }

  lemma {:induction false} WindowStartsBounds(n: nat, size: int, overlap: int, start: int)
    requires size > overlap && start >= 0
    ensures forall w :: w in WindowStarts(n, size, overlap, start) ==> start <= w < n
    decreases n - start
  {
    if start < n {
      WindowStartsBounds(n, size, overlap, start + size - overlap);
    }
  }

  /** Window offsets strictly increase. */
  lemma {:induction false} WindowStartsIncrease(n: nat, size: int, overlap: int, start: int)
    requires size > overlap && start >= 0
    ensures Increasing(WindowStarts(n, size, overlap, start))
    decreases n - start
  {
    if start < n {
      var next := start + size - overlap;
      WindowStartsIncrease(n, size, overlap, next);
      WindowStartsBounds(n, size, overlap, next);
      var ws := WindowStarts(n, size, overlap, start);
      assert ws[1..] == WindowStarts(n, size, overlap, next);
      forall i, j | 0 <= i < j < |ws| ensures ws[i] < ws[j] {
        assert ws[j] == ws[1..][j - 1];
        if i > 0 {
          assert ws[i] == ws[1..][i - 1];
        } else {
          assert ws[j] in WindowStarts(n, size, overlap, next);
        }
      }
    }
  }

  predicate Increasing(s: seq<int>) {
    forall i, j :: 0 <= i < j < |s| ==> s[i] < s[j]
  }

  /** Keeping some elements of an increasing sequence keeps it increasing. */
  lemma {:induction false} FilterIncreasing(s: seq<int>, p: int -> bool)
    requires Increasing(s)
    ensures Increasing(Seqs.Filter(s, p))
  {
    if s != [] {
      FilterIncreasing(s[1..], p);
      var rest := Seqs.Filter(s[1..], p);
      if p(s[0]) {
        var r := Seqs.Filter(s, p);
        assert r == [s[0]] + rest;
        forall i, j | 0 <= i < j < |r| ensures r[i] < r[j] {
          assert r[j] == rest[j - 1];
          if i == 0 {
            assert rest[j - 1] in rest;
            var k :| 0 <= k < |s[1..]| && s[1..][k] == rest[j - 1];
            assert s[k + 1] == rest[j - 1];
          } else {
            assert r[i] == rest[i - 1];
          }
        }
      }
    }
  }

  /** Chunks come out in strictly increasing start offset. */
  lemma ChunkStartsIncrease(text: string, size: int, overlap: int)
    requires size > overlap
    ensures Increasing(ChunkStarts(text, size, overlap, 0))
  {
    WindowStartsIncrease(|text|, size, overlap, 0);
    FilterIncreasing(WindowStarts(|text|, size, overlap, 0), NotBlank(text, size));
  }

  /** With a non-negative width every chunk is at most `size` characters. */
  lemma ChunkLengthBound(text: string, size: int, overlap: int, i: nat)
    requires size > overlap && size >= 0
    requires i < |ChunksFrom(text, size, overlap, 0)|
    ensures |ChunksFrom(text, size, overlap, 0)[i]| <= size
  {
    ChunkIsWindow(text, size, overlap, i);
  }

  /** With `0 <= overlap < size` the windows cover the text: every index lies in one. */
  lemma {:induction false} WindowsCover(text: string, size: int, overlap: int, start: int, j: int)
    requires 0 <= overlap < size && start >= 0
    requires start <= j < |text|
    ensures exists w :: w in WindowStarts(|text|, size, overlap, start) && w <= j < w + size
    decreases |text| - start
  {
    var next := start + size - overlap;
    var ws := WindowStarts(|text|, size, overlap, start);
    assert ws == [start] + WindowStarts(|text|, size, overlap, next);
    if j < next {
      assert start in ws;
    } else {
      WindowsCover(text, size, overlap, next, j);
      var w :| w in WindowStarts(|text|, size, overlap, next) && w <= j < w + size;
      assert w in ws;
    }
  }

  /** So no content is lost: every non-whitespace character lies inside a kept chunk. */
  lemma NonBlankCharacterIsChunked(text: string, size: int, overlap: int, j: int)
    requires 0 <= overlap < size
    requires 0 <= j < |text| && !IsPyWhitespace(text[j])
    ensures exists w :: w in ChunkStarts(text, size, overlap, 0) && w <= j < w + size
  {
    WindowsCover(text, size, overlap, 0, j);
    var ws := WindowStarts(|text|, size, overlap, 0);
    var w :| w in ws && w <= j < w + size;
    WindowStartsBounds(|text|, size, overlap, 0);
    var e := if w + size <= |text| then w + size else |text|;
    var win := Window(text, size, w);
    assert win == text[w..e];
    assert win[j - w] == text[j];
    assert NotBlankAt(text, size, w);
    assert NotBlank(text, size)(w);
    Seqs.FilterMembership(ws, NotBlank(text, size), w);
    assert w in ChunkStarts(text, size, overlap, 0);
  }

  /** Two consecutive full windows share exactly `overlap` characters: the last
      `overlap` of one are the first `overlap` of the next. */
  lemma ConsecutiveWindowsOverlap(text: string, size: int, overlap: int, s: int)
    requires 0 <= overlap < size && s >= 0
    requires s + size - overlap + size <= |text|
    ensures Window(text, size, s)[size - overlap..] == Window(text, size, s + size - overlap)[..overlap]
  {
    var next := s + size - overlap;
    assert Window(text, size, s) == text[s..s + size];
    assert Window(text, size, next) == text[next..next + size];
    assert text[s..s + size][size - overlap..] == text[next..s + size];
    assert text[next..next + size][..overlap] == text[next..s + size];
  }
}
