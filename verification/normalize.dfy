/** Folding text for comparison, with an exact map back (knowledge_desk/normalize.py). */
module Normalize {
  import opened Text

  /** The parts of Unicode the code consults, left abstract. */
  datatype Alphabet = Alphabet(
    invisible: char -> bool,  // is_invisible: the format category and a few more
    lookalike: char -> char,  // the lookalike table, identity off the table
    space: char -> bool,      // `\s`, which is str.isspace
    digit: char -> bool,      // `\d`
    upper: char -> char)      // the letter a character equals when case is ignored

  datatype Span = Span(start: nat, end: nat)

  /** The folded form of `t[a..b]`: invisible characters go, lookalikes are replaced. */
  function FoldRange(A: Alphabet, t: string, a: nat, b: nat): (r: string)
    requires a <= b <= |t|
    decreases b
  {
    if a == b then []
    else FoldRange(A, t, a, b - 1) + (if A.invisible(t[b - 1]) then [] else [A.lookalike(t[b - 1])])
  }

  function Folded(A: Alphabet, t: string): string {
    FoldRange(A, t, 0, |t|)
  }

  /** How many characters of `t[..n]` survive folding: where position `n` lands. */
  function Rank(A: Alphabet, t: string, n: nat): nat
    requires n <= |t|
  {
    |FoldRange(A, t, 0, n)|
  }

  /** `origin[i]` is the index in `t[..n]` that folded character `i` came from. */
  function OriginOf(A: Alphabet, t: string, n: nat): seq<nat>
    requires n <= |t|
  {
    if n == 0 then []
    else OriginOf(A, t, n - 1) + (if A.invisible(t[n - 1]) then [] else [n - 1])
  }

  method Fold(A: Alphabet, text: string) returns (out: string, origin: seq<nat>)
    ensures out == Folded(A, text)
    ensures origin == OriginOf(A, text, |text|)
  {
    out, origin := [], [];
    for i := 0 to |text|
      invariant out == FoldRange(A, text, 0, i)
      invariant origin == OriginOf(A, text, i)
    {
      if !A.invisible(text[i]) {
        out := out + [A.lookalike(text[i])];
        origin := origin + [i];
      }
    }
  }

  /** The map is exact: one entry per folded character, each pointing at the visible
      character it came from, in order. */
  ghost predicate ExactMap(A: Alphabet, t: string, n: nat, origin: seq<nat>)
    requires n <= |t|
  {
    && |origin| == Rank(A, t, n)
    && (forall i :: 0 <= i < |origin| ==>
          && origin[i] < n
          && !A.invisible(t[origin[i]])
          && Rank(A, t, origin[i]) == i
          && FoldRange(A, t, 0, n)[i] == A.lookalike(t[origin[i]]))
    && (forall i, j :: 0 <= i < j < |origin| ==> origin[i] < origin[j])
  }

  lemma {:induction false} OriginIsExact(A: Alphabet, t: string, n: nat)
    requires n <= |t|
    ensures ExactMap(A, t, n, OriginOf(A, t, n))
  {
    if n > 0 {
      OriginIsExact(A, t, n - 1);
    }
  }

  /** No visible character is missed: every one of them is the origin of its rank. */
  lemma {:induction false} OriginMissesNothing(A: Alphabet, t: string, n: nat, x: nat)
    requires x < n <= |t| && !A.invisible(t[x])
    ensures Rank(A, t, x) < |OriginOf(A, t, n)| && OriginOf(A, t, n)[Rank(A, t, x)] == x
  {
    OriginIsExact(A, t, n - 1);
    if x < n - 1 {
      OriginMissesNothing(A, t, n - 1, x);
    }
  }

  /** Map a span of the folded text back to the original, branch for branch. */
  function OriginalSpan(origin: seq<nat>, start: nat, end: nat, length: nat): Span
  {
    if start >= |origin| then Span(length, length)
    else
      var last := if 0 < end <= |origin| then origin[end - 1] else origin[|origin| - 1];
      Span(origin[start], last + 1)
  }

  /** What replacing `spans[k..]` with `marker` makes of `t[from..]`. */
  function Splice(t: string, spans: seq<Span>, k: nat, marker: string, from: nat): string
    requires k <= |spans| && from <= |t|
    requires InOrder(spans, from, |t|, k)
    decreases |spans| - k
  {
    if k == |spans| then t[from..]
    else t[from..spans[k].start] + (marker + Splice(t, spans, k + 1, marker, spans[k].end))
  }

  /** `spans[k..]` are non-empty, sorted, disjoint, and inside `lo..hi`. */
  predicate InOrder(spans: seq<Span>, lo: nat, hi: nat, k: nat)
    requires k <= |spans|
    decreases |spans| - k
  {
    if k == |spans| then lo <= hi
    else lo <= spans[k].start < spans[k].end <= hi && InOrder(spans, spans[k].end, hi, k + 1)
  }

  lemma {:induction false} InOrderAt(spans: seq<Span>, lo: nat, hi: nat, k: nat, i: nat)
    requires k <= i < |spans| && InOrder(spans, lo, hi, k)
    ensures lo <= spans[i].start < spans[i].end <= hi && InOrder(spans, spans[i].end, hi, i + 1)
    ensures k < i ==> spans[i - 1].end <= spans[i].start
    ensures InOrder(spans, if i == k then lo else spans[i - 1].end, hi, i)
    decreases i - k
  {
    if k < i {
      InOrderAt(spans, spans[k].end, hi, k + 1, i);
    }
  }

  lemma {:induction false} InOrderCons(x: Span, spans: seq<Span>, lo: nat, hi: nat, k: nat)
    requires k <= |spans| && InOrder(spans, lo, hi, k)
    ensures InOrder([x] + spans, lo, hi, k + 1)
    decreases |spans| - k
  {
    if k < |spans| {
      InOrderCons(x, spans, spans[k].end, hi, k + 1);
    }
  }

  lemma {:induction false} InOrderWiden(spans: seq<Span>, lo: nat, lo': nat, hi: nat, k: nat)
    requires k <= |spans| && lo' <= lo && InOrder(spans, lo, hi, k)
    ensures InOrder(spans, lo', hi, k)
  {
  }

  /** Splicing from an earlier point only prepends the text in between. */
  lemma {:induction false} SpliceFromEarlier(t: string, spans: seq<Span>, k: nat, marker: string, from: nat, mid: nat)
    requires k <= |spans| && from <= mid <= |t| && InOrder(spans, mid, |t|, k)
    ensures InOrder(spans, from, |t|, k)
    ensures Splice(t, spans, k, marker, from) == t[from..mid] + Splice(t, spans, k, marker, mid)
  {
    if k < |spans| {
      var rest := marker + Splice(t, spans, k + 1, marker, spans[k].end);
      assert t[from..spans[k].start] == t[from..mid] + t[mid..spans[k].start];
      ConcatAssoc(t[from..mid], t[mid..spans[k].start], rest);
    }
  }

  /** The source's loop: right to left, so earlier spans keep their indices. */
  method ReplaceFolded(text: string, spans: seq<Span>, marker: string) returns (r: string)
    requires InOrder(spans, 0, |text|, 0)
    ensures r == Splice(text, spans, 0, marker, 0)
  {
    r := text;
    var k := |spans|;
    while k > 0
      invariant 0 <= k <= |spans|
      invariant InOrder(spans, 0, |text|, k)
      invariant r == Splice(text, spans, k, marker, 0)
    {
      k := k - 1;
      InOrderAt(spans, 0, |text|, 0, k);
      InOrderWiden(spans, if k == 0 then 0 else spans[k - 1].end, 0, |text|, k);
      var sp := spans[k];
      ReplaceOne(text, spans, k, marker);
      r := r[..sp.start] + marker + r[sp.end..];
    }
  }

  /** Cutting span `k` out of the text with `spans[k + 1..]` already replaced. */
  lemma ReplaceOne(t: string, spans: seq<Span>, k: nat, marker: string)
    requires k < |spans| && InOrder(spans, 0, |t|, k)
    ensures InOrder(spans, 0, |t|, k + 1)
    ensures var r := Splice(t, spans, k + 1, marker, 0);
            && spans[k].end <= |r|
            && r[..spans[k].start] + marker + r[spans[k].end..] == Splice(t, spans, k, marker, 0)
  {
    var sp := spans[k];
    SpliceFromEarlier(t, spans, k + 1, marker, 0, sp.end);
    var rest := Splice(t, spans, k + 1, marker, sp.end);
    CutOut(t[..sp.end], rest, sp.start);
    ConcatAssoc(t[..sp.start], marker, rest);
  }

  lemma CutOut(head: string, rest: string, s: nat)
    requires s <= |head|
    ensures (head + rest)[..s] == head[..s] && (head + rest)[|head|..] == rest
  {
  }

  lemma {:induction false} FoldRangeSplit(A: Alphabet, t: string, a: nat, b: nat, c: nat)
    requires a <= b <= c <= |t|
    ensures FoldRange(A, t, a, c) == FoldRange(A, t, a, b) + FoldRange(A, t, b, c)
    decreases c
  {
    if b < c {
      FoldRangeSplit(A, t, a, b, c - 1);
      var last := if A.invisible(t[c - 1]) then [] else [A.lookalike(t[c - 1])];
      ConcatAssoc(FoldRange(A, t, a, b), FoldRange(A, t, b, c - 1), last);
    }
  }

  /** Folding looks only at the characters of the range. */
  lemma {:induction false} FoldRangeAgrees(A: Alphabet, s: string, i: nat, t: string, j: nat, n: nat)
    requires i + n <= |s| && j + n <= |t|
    requires forall x {:trigger s[x]} :: i <= x < i + n ==> s[x] == t[x - i + j]
    ensures FoldRange(A, s, i, i + n) == FoldRange(A, t, j, j + n)
    decreases n
  {
    if n > 0 {
      FoldRangeAgrees(A, s, i, t, j, n - 1);
    }
  }

  /** Folding is character by character, so it distributes over concatenation. */
  lemma FoldConcat(A: Alphabet, u: string, v: string)
    ensures Folded(A, u + v) == Folded(A, u) + Folded(A, v)
  {
    FoldRangeSplit(A, u + v, 0, |u|, |u + v|);
    FoldRangeAgrees(A, u + v, 0, u, 0, |u|);
    FoldRangeAgrees(A, u + v, |u|, v, 0, |v|);
  }

  /** The folded form of a slice is the slice of the folded form between the ranks. */
  lemma FoldSlice(A: Alphabet, t: string, a: nat, b: nat)
    requires a <= b <= |t|
    ensures Rank(A, t, a) <= Rank(A, t, b) <= |Folded(A, t)|
    ensures Folded(A, t[a..b]) == Folded(A, t)[Rank(A, t, a)..Rank(A, t, b)]
  {
    FoldRangeAgrees(A, t, a, t[a..b], 0, b - a);
    FoldRangeSplit(A, t, 0, a, b);
    FoldRangeSplit(A, t, 0, b, |t|);
    var x, y, z := FoldRange(A, t, 0, a), FoldRange(A, t, a, b), FoldRange(A, t, b, |t|);
    assert Folded(A, t) == (x + y) + z;
    assert ((x + y) + z)[|x|..|x| + |y|] == y;
  }

  /** The spans found in the folded text, mapped back one by one. */
  function OriginalSpans(origin: seq<nat>, spans: seq<Span>, length: nat): (r: seq<Span>)
    ensures |r| == |spans|
    ensures forall i :: 0 <= i < |r| ==> r[i] == OriginalSpan(origin, spans[i].start, spans[i].end, length)
  {
    seq(|spans|, i requires 0 <= i < |spans| => OriginalSpan(origin, spans[i].start, spans[i].end, length))
  }

  /** A non-empty span of the folded text maps to original positions whose ranks are its ends. */
  lemma MappedSpan(A: Alphabet, t: string, sp: Span)
    requires sp.start < sp.end <= |Folded(A, t)|
    ensures var o := OriginalSpan(OriginOf(A, t, |t|), sp.start, sp.end, |t|);
            && o.start < o.end <= |t|
            && Rank(A, t, o.start) == sp.start && Rank(A, t, o.start + 1) == sp.start + 1 && Rank(A, t, o.end) == sp.end
  {
    OriginIsExact(A, t, |t|);
  }

  /** The documented fallback of a span that runs to the end of the folded text, that it ends
      at the original length, holds exactly when the original's last character is visible. */
  lemma SpanToEndIff(A: Alphabet, t: string, start: nat)
    requires start < |Folded(A, t)|
    ensures OriginalSpan(OriginOf(A, t, |t|), start, |Folded(A, t)|, |t|).end == |t| <==> !A.invisible(t[|t| - 1])
  {
    var origin := OriginOf(A, t, |t|);
    OriginIsExact(A, t, |t|);
    if !A.invisible(t[|t| - 1]) {
      OriginMissesNothing(A, t, |t|, |t| - 1);
    } else {
      assert !A.invisible(t[origin[|origin| - 1]]);
    }
  }

  /** An empty span falls back to the original length only behind the last folded character.
      At the front it maps to everything from the first visible character to the last, and in
      between to a range that ends no later than it starts. */
  lemma EmptySpan(A: Alphabet, t: string, at: nat)
    requires at <= |Folded(A, t)|
    ensures var o := OriginalSpan(OriginOf(A, t, |t|), at, at, |t|);
            if at == |Folded(A, t)| then o == Span(|t|, |t|)
            else if at == 0 then
              && o.start < o.end <= |t| && Rank(A, t, o.start) == 0 && Rank(A, t, o.end) == |Folded(A, t)|
            else o.end <= o.start
  {
    OriginIsExact(A, t, |t|);
  }

  /** Sorted, disjoint, non-empty spans of the folded text map to sorted, disjoint,
      non-empty spans of the original. */
  lemma {:induction false} MappedSpansInOrder(A: Alphabet, t: string, spans: seq<Span>, k: nat, lo: nat)
    requires k <= |spans| && lo <= |t|
    requires InOrder(spans, Rank(A, t, lo), |Folded(A, t)|, k)
    ensures InOrder(OriginalSpans(OriginOf(A, t, |t|), spans, |t|), lo, |t|, k)
    decreases |spans| - k
  {
    if k < |spans| {
      MappedSpan(A, t, spans[k]);
      var o := OriginalSpans(OriginOf(A, t, |t|), spans, |t|)[k];
      RankMonotone(A, t, o.start + 1, lo);
      MappedSpansInOrder(A, t, spans, k + 1, o.end);
    }
  }

  lemma RankMonotone(A: Alphabet, t: string, x: nat, y: nat)
    requires x <= |t| && y <= |t|
    ensures x <= y ==> Rank(A, t, x) <= Rank(A, t, y)
  {
    if x <= y {
      FoldRangeSplit(A, t, 0, x, y);
    }
  }

  /** Folding the spliced original equals splicing the folded text, for a marker that
      folding leaves alone: matching on one and cutting the other loses nothing. */
  lemma {:induction false} FoldCommutesWithSplice(A: Alphabet, t: string, spans: seq<Span>, k: nat, marker: string,
                                                  from: nat)
    requires k <= |spans| && from <= |t| && Folded(A, marker) == marker
    requires Rank(A, t, from) <= |Folded(A, t)|
    requires InOrder(spans, Rank(A, t, from), |Folded(A, t)|, k)
    ensures InOrder(OriginalSpans(OriginOf(A, t, |t|), spans, |t|), from, |t|, k)
    ensures Folded(A, Splice(t, OriginalSpans(OriginOf(A, t, |t|), spans, |t|), k, marker, from))
            == Splice(Folded(A, t), spans, k, marker, Rank(A, t, from))
    decreases |spans| - k
  {
    MappedSpansInOrder(A, t, spans, k, from);
    var os := OriginalSpans(OriginOf(A, t, |t|), spans, |t|);
    if k == |spans| {
      FoldSlice(A, t, from, |t|);
      assert t[from..|t|] == t[from..];
    } else {
      MappedSpan(A, t, spans[k]);
      FoldCommutesWithSplice(A, t, spans, k + 1, marker, os[k].end);
      var rest := Splice(t, os, k + 1, marker, os[k].end);
      FoldSlice(A, t, from, os[k].start);
      FoldConcat(A, t[from..os[k].start], marker + rest);
      FoldConcat(A, marker, rest);
    }
  }
}
