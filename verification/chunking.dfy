/** `chunk_text`: fixed character windows with overlap (knowledge_desk/chunking.py). */
module Chunking {
  import opened Text

  const DEFAULT_SIZE: int := 1000
  const DEFAULT_OVERLAP: int := 150

  datatype ChunkResult = Chunks(pieces: seq<string>) | SizeNotPositive | OverlapTooLarge

  /** `size or default`: both an absent and a zero size take the default. */
  function EffectiveSize(size: Option<int>): int {
    if size.None? || size.value == 0 then DEFAULT_SIZE else size.value
  }

  function EffectiveOverlap(overlap: Option<int>): int {
    if overlap.None? then DEFAULT_OVERLAP else overlap.value
  }

  /** Where a window opening at `at` ends. */
  function Reach(text: string, at: nat, size: nat): (r: nat)
    ensures r <= |text|
  {
    if at + size <= |text| then at + size else |text|
  }

  /** The window opening at `start`, before stripping. */
  function Window(text: string, start: nat, size: nat): (w: string)
    requires start <= |text|
    ensures |w| <= size
  {
    text[start..Reach(text, start, size)]
  }

  /** Every window of `text` from `start` on, in order: the source's loop read as a list. */
  function Windows(text: string, start: nat, size: nat, step: nat): seq<string>
    requires size > 0 && step > 0
    decreases |text| - start
  {
    if start >= |text| then []
    else [Window(text, start, size)] +
         (if start + size >= |text| then [] else Windows(text, start + step, size, step))
  }

  /** The stripped window, or nothing when it is blank. */
  function Piece(strip: string -> string, window: string): (r: seq<string>)
  {
    if strip(window) == [] then [] else [strip(window)]
  }

  /** Strip each window and keep those with something left. */
  function Pieces(strip: string -> string, windows: seq<string>): seq<string>
  {
    if windows == [] then [] else Piece(strip, windows[0]) + Pieces(strip, windows[1..])
  }

  /** The pieces of every window from `start` on: the loop of the source as a recursion. */
  function PiecesFrom(strip: string -> string, text: string, start: nat, size: nat, step: nat): seq<string>
    requires size > 0 && step > 0
    decreases |text| - start
  {
    if start >= |text| then []
    else if start + size >= |text| then Piece(strip, Window(text, start, size))
    else Piece(strip, Window(text, start, size)) + PiecesFrom(strip, text, start + step, size, step)
  }

  /** What chunking a document with the given settings yields, as a value. */
  function ChunkSpec(text: string, size: int, overlap: int): (r: ChunkResult)
  {
    if size <= 0 then SizeNotPositive
    else if overlap >= size then OverlapTooLarge
    else Chunks(PiecesFrom(Strip, Strip(text), 0, size, size - overlap))
  }

  /** The chunks of a stored document, under the configured window. */
  function DocumentChunks(text: string): seq<string>
  {
    ChunkSpec(text, DEFAULT_SIZE, DEFAULT_OVERLAP).pieces
  }

  /** The pieces are the stripped, non-blank windows, in order. */
  lemma {:induction false} PiecesAreStrippedWindows(strip: string -> string, text: string, start: nat, size: nat,
                                                    step: nat)
    requires size > 0 && step > 0
    ensures PiecesFrom(strip, text, start, size, step) == Pieces(strip, Windows(text, start, size, step))
    decreases |text| - start
  {
    var ws := Windows(text, start, size, step);
    if start < |text| && start + size < |text| {
      PiecesAreStrippedWindows(strip, text, start + step, size, step);
      ConsTail(Window(text, start, size), Windows(text, start + step, size, step));
    }
  }

  method ChunkText(text: string, size: Option<int>, overlap: Option<int>) returns (r: ChunkResult)
    ensures r == ChunkSpec(text, EffectiveSize(size), EffectiveOverlap(overlap))
  {
    var sz := EffectiveSize(size);
    var ov := EffectiveOverlap(overlap);
    if sz <= 0 {
      return SizeNotPositive;
    }
    if ov >= sz {
      return OverlapTooLarge;
    }
    var chunks := ChunkLoop(Strip, Strip(text), sz, sz - ov);
    return Chunks(chunks);
  }

  method ChunkLoop(strip: string -> string, text: string, size: nat, step: nat) returns (chunks: seq<string>)
    requires 0 < size && 0 < step
    ensures chunks == PiecesFrom(strip, text, 0, size, step)
  {
    chunks := [];
    var start := 0;
    while start < |text|
      invariant 0 <= start
      invariant chunks + PiecesFrom(strip, text, start, size, step) == PiecesFrom(strip, text, 0, size, step)
      decreases |text| - start
    {
      var piece := Piece(strip, Window(text, start, size));
      chunks := chunks + piece;
      if start + size >= |text| {
        return;
      }
      start := start + step;
    }
  }

  /** Undo the overlap over the first `n` windows: each later one gives up its first
      `overlap` characters. */
  function Rejoin(windows: seq<string>, n: nat, overlap: nat): string
    requires n <= |windows|
  {
    if n == 0 then []
    else if n == 1 then windows[0]
    else
      var w := windows[n - 1];
      Rejoin(windows, n - 1, overlap) + (if overlap <= |w| then w[overlap..] else [])
  }

  /** Where window number `i` opens: `start + i * step`, by repeated addition. */
  function StartOf(start: nat, i: nat, step: nat): (r: nat)
    decreases i
  {
    if i == 0 then start else StartOf(start + step, i - 1, step)
  }

  lemma {:induction false} StartOfStep(start: nat, i: nat, step: nat)
    ensures StartOf(start, i + 1, step) == StartOf(start, i, step) + step
    decreases i
  {
    if i > 0 {
      StartOfStep(start + step, i - 1, step);
    }
  }

  /** Window `i` opens at its start, and only the last window reaches the end of the text. */
  lemma {:induction false} WindowAt(text: string, start: nat, size: nat, step: nat, i: nat)
    requires 0 < step <= size
    requires i < |Windows(text, start, size, step)|
    ensures StartOf(start, i, step) < |text|
    ensures Windows(text, start, size, step)[i] == Window(text, StartOf(start, i, step), size)
    ensures i + 1 == |Windows(text, start, size, step)| <==> StartOf(start, i, step) + size >= |text|
    decreases i
  {
    if i > 0 {
      WindowAt(text, start + step, size, step, i - 1);
    }
  }

  /** Every window adds new text: it is longer than the part it shares with its predecessor. */
  lemma WindowAddsText(text: string, size: nat, overlap: nat, i: nat)
    requires overlap < size
    requires 0 < i < |Windows(text, 0, size, size - overlap)|
    ensures |Windows(text, 0, size, size - overlap)[i]| > overlap
  {
    var step := size - overlap;
    WindowAt(text, 0, size, step, i - 1);
    WindowAt(text, 0, size, step, i);
    StartOfStep(0, i - 1, step);
  }

  /** A window that overlaps a rejoined prefix extends it to the window's end. */
  lemma PrefixThenWindow(text: string, at: nat, end: nat, overlap: nat)
    requires at + overlap <= end <= |text|
    ensures text[..at + overlap] + text[at..end][overlap..] == text[..end]
  {
    assert text[at..end][overlap..] == text[at + overlap..end];
  }

  /** `windows` are consecutive windows of `text`, of which only the last reaches its end. */
  ghost predicate AreWindows(windows: seq<string>, text: string, size: nat, step: nat)
  {
    forall i :: 0 <= i < |windows| ==>
      && StartOf(0, i, step) < |text|
      && windows[i] == text[StartOf(0, i, step)..Reach(text, StartOf(0, i, step), size)]
      && (i + 1 < |windows| ==> StartOf(0, i, step) + size < |text|)
  }

  /** One window more, which overlaps what has been rejoined. */
  lemma RejoinStep(windows: seq<string>, text: string, overlap: nat, n: nat, at: nat, end: nat)
    requires 1 < n <= |windows| && at + overlap <= end <= |text|
    requires Rejoin(windows, n - 1, overlap) == text[..at + overlap] && windows[n - 1] == text[at..end]
    ensures Rejoin(windows, n, overlap) == text[..end]
  {
    PrefixThenWindow(text, at, end, overlap);
  }

  /** Rejoining the first `n` windows gives the text up to where window `n - 1` ends. */
  lemma {:induction false} RejoinPrefix(windows: seq<string>, text: string, size: nat, overlap: nat, n: nat)
    requires overlap < size && AreWindows(windows, text, size, size - overlap)
    requires 0 < n <= |windows|
    ensures Rejoin(windows, n, overlap) == text[..Reach(text, StartOf(0, n - 1, size - overlap), size)]
  {
    if n > 1 {
      RejoinPrefix(windows, text, size, overlap, n - 1);
      StartOfStep(0, n - 2, size - overlap);
      var at := StartOf(0, n - 1, size - overlap);
      assert Reach(text, StartOf(0, n - 2, size - overlap), size) == at + overlap;
      RejoinStep(windows, text, overlap, n, at, Reach(text, at, size));
    }
  }

  /** The windows lose nothing: dropping each overlap and joining gives the text back. */
  lemma WindowsRejoin(text: string, size: nat, overlap: nat)
    requires overlap < size
    ensures var ws := Windows(text, 0, size, size - overlap);
            Rejoin(ws, |ws|, overlap) == text
  {
    var ws, step := Windows(text, 0, size, size - overlap), size - overlap;
    if text != [] {
      forall i | 0 <= i < |ws|
        ensures && StartOf(0, i, step) < |text|
                && ws[i] == text[StartOf(0, i, step)..Reach(text, StartOf(0, i, step), size)]
                && (i + 1 < |ws| ==> StartOf(0, i, step) + size < |text|)
      {
        WindowAt(text, 0, size, step, i);
      }
      WindowAt(text, 0, size, step, |ws| - 1);
      RejoinPrefix(ws, text, size, overlap, |ws|);
    }
  }

  /** Window `i` holds all of `text[a..b]`. */
  predicate Holds(text: string, size: nat, step: nat, i: nat, a: nat, b: nat)
    requires size > 0 && step > 0
  {
    && i < |Windows(text, 0, size, step)|
    && StartOf(0, i, step) <= a
    && b <= StartOf(0, i, step) + |Windows(text, 0, size, step)[i]|
  }

  /** Any run of at most `overlap + 1` characters lies whole inside some window, so a
      short phrase is never cut by a boundary. */
  lemma ShortRunInOneWindow(text: string, size: nat, overlap: nat, a: nat, b: nat) returns (i: nat)
    requires overlap < size
    requires a < b <= |text| && b - a <= overlap + 1
    ensures Holds(text, size, size - overlap, i, a, b)
  {
    var step := size - overlap;
    i := FirstReaching(text, 0, size, step, b);
    WindowAt(text, 0, size, step, i);
    if i > 0 {
      StartOfStep(0, i - 1, step);
    }
  }

  /** The first window that reaches position `b`. */
  lemma {:induction false} FirstReaching(text: string, start: nat, size: nat, step: nat, b: nat) returns (i: nat)
    requires 0 < step <= size && start < |text| && start < b <= |text|
    ensures i < |Windows(text, start, size, step)|
    ensures b <= StartOf(start, i, step) + size
    ensures i > 0 ==> b > StartOf(start, i - 1, step) + size
    decreases |text| - start
  {
    if b <= start + size {
      i := 0;
    } else {
      var j := FirstReaching(text, start + step, size, step, b);
      i := j + 1;
    }
  }

  /** Some window holds position `x` of the text. */
  ghost predicate Covered(text: string, size: nat, step: nat, x: nat)
    requires size > 0 && step > 0
  {
    exists i: nat :: HoldsChar(text, size, step, i, x)
  }

  predicate HoldsChar(text: string, size: nat, step: nat, i: nat, x: nat)
    requires size > 0 && step > 0
  {
    Holds(text, size, step, i, x, x + 1)
  }

  lemma {:induction false} LaterWindowsStartLater(i: nat, step: nat)
    requires i > 0
    ensures StartOf(0, i, step) >= step
  {
    StartOfStep(0, i - 1, step);
  }

  /** The source accepts a negative overlap. Every character is then still in a window
      exactly when the text fits one window; otherwise the step jumps past characters.
      So coverage holds iff the overlap is not negative or the text is short. */
  lemma CoverageIff(text: string, size: nat, overlap: int)
    requires 0 < size && overlap < size
    ensures (forall x: nat {:trigger Covered(text, size, size - overlap, x)} ::
               x < |text| ==> Covered(text, size, size - overlap, x))
            <==> (overlap >= 0 || |text| <= size)
  {
    var step := size - overlap;
    if overlap >= 0 {
      forall x: nat {:trigger Covered(text, size, step, x)} | x < |text| ensures Covered(text, size, step, x) {
        var i := ShortRunInOneWindow(text, size, overlap, x, x + 1);
        assert HoldsChar(text, size, step, i, x);
      }
    } else if |text| <= size {
      forall x: nat {:trigger Covered(text, size, step, x)} | x < |text| ensures Covered(text, size, step, x) {
        assert HoldsChar(text, size, step, 0, x);
      }
    } else {
      forall i: nat ensures !HoldsChar(text, size, step, i, size) {
        if i > 0 {
          LaterWindowsStartLater(i, step);
        }
      }
      assert !Covered(text, size, step, size);
    }
  }

  lemma {:induction false} PiecesBounded(strip: string -> string, windows: seq<string>, size: nat)
    requires forall w :: |strip(w)| <= |w|
    requires forall i :: 0 <= i < |windows| ==> |windows[i]| <= size
    ensures forall i :: 0 <= i < |Pieces(strip, windows)| ==> 0 < |Pieces(strip, windows)[i]| <= size
  {
    if windows != [] {
      PiecesBounded(strip, windows[1..], size);
    }
  }

  lemma {:induction false} WindowsBounded(text: string, start: nat, size: nat, step: nat)
    requires size > 0 && step > 0
    ensures forall i :: 0 <= i < |Windows(text, start, size, step)| ==> |Windows(text, start, size, step)[i]| <= size
    decreases |text| - start
  {
    if start < |text| && start + size < |text| {
      WindowsBounded(text, start + step, size, step);
    }
  }

  /** Every emitted piece is non-empty and fits the window, and there is no piece at all
      exactly when the text is blank. */
  lemma ChunksBounded(text: string, size: int, overlap: int)
    requires 0 < size && overlap < size
    ensures var r := ChunkSpec(text, size, overlap);
            && r.Chunks?
            && (forall i :: 0 <= i < |r.pieces| ==> 0 < |r.pieces[i]| <= size)
            && (r.pieces == [] <==> forall i :: 0 <= i < |text| ==> IsSpace(text[i]))
  {
    var t, step := Strip(text), size - overlap;
    WindowsBounded(t, 0, size, step);
    PiecesBounded(Strip, Windows(t, 0, size, step), size);
    PiecesAreStrippedWindows(Strip, t, 0, size, step);
    StripEmptyIffBlank(text);
    if t != [] {
      var first := Window(t, 0, size);
      StripEmptyIffBlank(first);
      assert first[0] == t[0];
    }
  }
}
