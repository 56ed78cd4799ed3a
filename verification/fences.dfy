/** Scanning a prompt for what lies outside its fences (knowledge_desk/providers.py:286-316). */
module Fences {
  import opened Text
  import opened Normalize

  predicate IsAt(s: string, pat: string, i: nat) {
    i + |pat| <= |s| && s[i..i + |pat|] == pat
  }

  /** `str.find(pat, from)`. */
  function Find(s: string, pat: string, from: nat): (r: Option<nat>)
    requires from <= |s|
    ensures r.Some? ==> from <= r.value && r.value + |pat| <= |s|
    decreases |s| - from
  {
    if IsAt(s, pat, from) then Some(from)
    else if from == |s| then None
    else Find(s, pat, from + 1)
  }

  /** `Find` reports the first occurrence. */
  lemma {:induction false} FindIsFirst(s: string, pat: string, from: nat)
    requires from <= |s|
    ensures var r := Find(s, pat, from);
            && (r.Some? ==> IsAt(s, pat, r.value) && forall k :: from <= k < r.value ==> !IsAt(s, pat, k))
            && (r.None? ==> forall k :: from <= k ==> !IsAt(s, pat, k))
    decreases |s| - from
  {
    if from < |s| && !IsAt(s, pat, from) {
      FindIsFirst(s, pat, from + 1);
    }
  }

  /** `Find` and slicing of one text, as lookups by position. */
  function Finder(s: string, pat: string): nat -> Option<nat> {
    (from: nat) => if from <= |s| then Find(s, pat, from) else None
  }

  lemma {:induction false} FindIs(s: string, pat: string, from: nat, i: nat)
    requires from <= i && IsAt(s, pat, i) && forall k :: from <= k < i ==> !IsAt(s, pat, k)
    ensures from <= |s| && Find(s, pat, from) == Some(i)
    decreases i - from
  {
    if from < i {
      FindIs(s, pat, from + 1, i);
    }
  }

  predicate NoTagStart(s: string) {
    forall x :: 0 <= x < |s| ==> s[x] != '<'
  }

  /** What the scan relies on about the two tags of a request. */
  predicate TagPair(open: string, close: string) {
    && |open| >= 4 && open[0] == '<' && open[3] == 'U' && (forall x :: 3 <= x < |open| ==> open[x] != '<')
    && |close| >= 4 && close[0] == '<' && close[1] == '<' && close[2] == '<' && close[3] == 'E'
    && (forall x :: 0 <= x < |open| ==> open[x] != '\n')
    && (forall x :: 0 <= x < |close| ==> close[x] != '\n')
  }

  lemma NotAt(s: string, pat: string, k: nat, x: nat)
    requires x < |pat| && (k + x < |s| ==> s[k + x] != pat[x])
    ensures !IsAt(s, pat, k)
  {
    if k + |pat| <= |s| {
      assert s[k..k + |pat|][x] == s[k + x];
    }
  }

  /** `pat` occurs nowhere in `s`. */
  predicate NoneIn(s: string, pat: string) {
    forall k :: 0 <= k <= |s| ==> !IsAt(s, pat, k)
  }

  /** A pattern without a line break cannot straddle one. */
  lemma NoneJoin(u: string, w: string, pat: string)
    requires pat != [] && (forall x :: 0 <= x < |pat| ==> pat[x] != '\n')
    requires NoneIn(u, pat) && NoneIn(w, pat)
    ensures NoneIn(u + ("\n" + w), pat)
  {
    var s := u + ("\n" + w);
    assert s[|u|] == '\n';
    forall k | 0 <= k <= |s| ensures !IsAt(s, pat, k) {
      if k <= |u| < k + |pat| {
        NotAt(s, pat, k, |u| - k);
      } else if k + |pat| <= |u| {
        assert s[k..k + |pat|] == u[k..k + |pat|];
        assert !IsAt(u, pat, k);
      } else if k + |pat| <= |s| {
        assert s[k..k + |pat|] == w[k - |u| - 1..k - |u| - 1 + |pat|];
        assert !IsAt(w, pat, k - |u| - 1);
      }
    }
  }

  /** A prefix in which no tag can begin adds no occurrence. */
  lemma NoneAfter(head: string, s: string, pat: string)
    requires pat != [] && pat[0] == '<' && NoTagStart(head) && NoneIn(s, pat)
    ensures NoneIn(head + s, pat)
  {
    forall k | 0 <= k <= |head + s| ensures !IsAt(head + s, pat, k) {
      if k < |head| {
        NotAt(head + s, pat, k, 0);
      } else if k + |pat| <= |head + s| {
        assert (head + s)[k..k + |pat|] == s[k - |head|..k - |head| + |pat|];
        assert !IsAt(s, pat, k - |head|);
      }
    }
  }

  lemma IsAtSkips(head: string, s: string, pat: string, k: nat)
    ensures IsAt(head + s, pat, |head| + k) == IsAt(s, pat, k)
  {
    if k + |pat| <= |s| {
      assert (head + s)[|head| + k..|head| + k + |pat|] == s[k..k + |pat|];
    }
  }

  lemma {:induction false} FindLater(s: string, pat: string, from: nat, later: nat)
    requires from <= later <= |s| && forall k :: from <= k < later ==> !IsAt(s, pat, k)
    ensures Find(s, pat, from) == Find(s, pat, later)
    decreases |s| - from
  {
    if from < later {
      FindLater(s, pat, from + 1, later);
    }
  }

  function Moved(f: Option<nat>, d: nat): Option<nat> {
    if f.None? then None else Some(f.value + d)
  }

  lemma {:induction false} FindFromSkips(head: string, s: string, pat: string, from: nat)
    requires from <= |s|
    ensures Find(head + s, pat, |head| + from) == Moved(Find(s, pat, from), |head|)
    decreases |s| - from
  {
    IsAtSkips(head, s, pat, from);
    if from < |s| {
      FindFromSkips(head, s, pat, from + 1);
    }
  }

  lemma FindSkips(head: string, s: string, pat: string)
    requires pat != [] && pat[0] == '<' && NoTagStart(head)
    ensures Find(head + s, pat, 0) == Moved(Find(s, pat, 0), |head|)
  {
    forall k | 0 <= k < |head| ensures !IsAt(head + s, pat, k) {
      NotAt(head + s, pat, k, 0);
    }
    FindLater(head + s, pat, 0, |head|);
    FindFromSkips(head, s, pat, 0);
  }

  /** The inside of a fence holds no close tag, and cannot begin one that ends beyond it. */
  predicate Contained(inside: string, close: string) {
    NoTagStart(inside) || (inside != [] && inside[|inside| - 1] == '\n' && NoneIn(inside, close))
  }

  lemma NoCloseBefore(inside: string, open: string, close: string, rest: string, k: nat)
    requires TagPair(open, close) && Contained(inside, close) && k < |open| + |inside|
    ensures !IsAt(open + (inside + (close + rest)), close, k)
  {
    var s := open + (inside + (close + rest));
    assert s[3] == open[3];
    if k < 3 {
      NotAt(s, close, k, 3 - k);
    } else if k < |open| {
      assert s[k] == open[k];
      NotAt(s, close, k, 0);
    } else {
      var j := k - |open|;
      assert s[k] == inside[j];
      if NoTagStart(inside) {
        NotAt(s, close, k, 0);
      } else if j + |close| <= |inside| {
        assert s[k..k + |close|] == inside[j..j + |close|];
        assert !IsAt(inside, close, j);
      } else {
        assert s[|open| + |inside| - 1] == inside[|inside| - 1];
        NotAt(s, close, k, |inside| - 1 - j);
      }
    }
  }

  /** From an open tag at the front, the next close tag is the one behind `inside`. */
  lemma CloseFound(inside: string, open: string, close: string, rest: string)
    requires TagPair(open, close) && Contained(inside, close)
    ensures Find(open + (inside + (close + rest)), close, 0) == Some(|open| + |inside|)
  {
    var s, at := open + (inside + (close + rest)), |open| + |inside|;
    forall k | 0 <= k < at ensures !IsAt(s, close, k) {
      NoCloseBefore(inside, open, close, rest, k);
    }
    assert s[at..at + |close|] == close;
    FindIs(s, close, 0, at);
  }

  lemma OpenFound(head: string, open: string, more: string)
    requires open != [] && open[0] == '<' && NoTagStart(head)
    ensures Find(head + (open + more), open, 0) == Some(|head|)
  {
    var t := open + more;
    assert t[0..|open|] == open;
    FindIs(t, open, 0, 0);
    FindSkips(head, t, open);
  }

  // ---- the fences of a text ----------------------------------------------------------

  /** The first fence opening at or after `pos`, from its open tag through its close tag,
      which is `skip` characters long. A fence that never closes is none. */
  function NextFence(open: nat -> Option<nat>, close: nat -> Option<nat>, skip: nat, pos: nat): Option<Span> {
    var start := open(pos);
    if start.None? then None
    else
      var end := close(start.value);
      if end.None? then None else Some(Span(start.value, end.value + skip))
  }

  /** The fences of `s`, as a lookup by position. */
  function FenceFinder(s: string, open: string, close: string): nat -> Option<Span> {
    (pos: nat) => NextFence(Finder(s, open), Finder(s, close), |close|, pos)
  }

  predicate Reports(next: nat -> Option<Span>, n: nat, pos: nat) {
    var f := next(pos);
    f.Some? && pos <= f.value.start < f.value.end <= n
  }

  /** The fences `next` reports from `pos` on in a text of length `n`. */
  function FencesFrom(next: nat -> Option<Span>, n: nat, pos: nat): (r: seq<Span>)
    requires pos <= n
    ensures InOrder(r, pos, n, 0)
    decreases n - pos
  {
    if !Reports(next, n, pos) then []
    else
      var f := next(pos).value;
      var rest := FencesFrom(next, n, f.end);
      InOrderCons(f, rest, f.end, n, 0);
      [f] + rest
  }

  function FencesIn(s: string, open: string, close: string, pos: nat): seq<Span>
    requires pos <= |s|
  {
    FencesFrom(FenceFinder(s, open, close), |s|, pos)
  }

  function AllFences(s: string, open: string, close: string): (r: seq<Span>)
    ensures InOrder(r, 0, |s|, 0)
  {
    FencesIn(s, open, close, 0)
  }

  /** The text with every fence cut out. */
  function Outside(s: string, open: string, close: string): string {
    Splice(s, AllFences(s, open, close), 0, "", 0)
  }

  /** What a fence holds between its tags. */
  function Held(s: string, tag: nat, skip: nat): Span -> string {
    (f: Span) => if f.start + tag + skip <= f.end <= |s| then s[f.start + tag..f.end - skip] else ""
  }

  /** What is inside each fence. */
  function Inside(s: string, open: string, close: string): seq<string> {
    MapFrom(Held(s, |open|, |close|), AllFences(s, open, close), 0)
  }

  // ---- a text behind another ---------------------------------------------------------

  function MovedSpan(f: Span, d: nat): Span {
    Span(d + f.start, d + f.end)
  }

  function MovedSpans(fences: seq<Span>, d: nat): (r: seq<Span>)
    ensures |r| == |fences|
    ensures forall i :: 0 <= i < |r| ==> r[i] == MovedSpan(fences[i], d)
  {
    seq(|fences|, i requires 0 <= i < |fences| => MovedSpan(fences[i], d))
  }

  function MovedFence(f: Option<Span>, d: nat): Option<Span> {
    if f.None? then None else Some(MovedSpan(f.value, d))
  }

  /** `find'` reports what `find` does, `d` places further on. */
  predicate FindsMoved(find: nat -> Option<nat>, find': nat -> Option<nat>, d: nat, pos: nat) {
    find'(d + pos) == Moved(find(pos), d)
  }

  lemma FinderMoves(head: string, s: string, pat: string, pos: nat)
    requires pos <= |s|
    ensures FindsMoved(Finder(s, pat), Finder(head + s, pat), |head|, pos)
    ensures Finder(s, pat)(pos).Some? ==> Finder(s, pat)(pos).value <= |s|
  {
    FindFromSkips(head, s, pat, pos);
  }

  lemma NextFenceMoves(open: nat -> Option<nat>, close: nat -> Option<nat>, open': nat -> Option<nat>,
                       close': nat -> Option<nat>, skip: nat, d: nat, pos: nat)
    requires FindsMoved(open, open', d, pos)
    requires open(pos).Some? ==> FindsMoved(close, close', d, open(pos).value)
    ensures NextFence(open', close', skip, d + pos) == MovedFence(NextFence(open, close, skip, pos), d)
  {
  }

  predicate FenceMoved(next: nat -> Option<Span>, next': nat -> Option<Span>, d: nat, pos: nat) {
    next'(d + pos) == MovedFence(next(pos), d)
  }

  lemma FenceFinderMoves(head: string, s: string, open: string, close: string, pos: nat)
    requires pos <= |s|
    ensures FenceMoved(FenceFinder(s, open, close), FenceFinder(head + s, open, close), |head|, pos)
  {
    var fo := Finder(s, open);
    FinderMoves(head, s, open, pos);
    if fo(pos).Some? {
      FinderMoves(head, s, close, fo(pos).value);
    }
    NextFenceMoves(fo, Finder(s, close), Finder(head + s, open), Finder(head + s, close), |close|, |head|, pos);
  }

  ghost predicate FencesMoved(next: nat -> Option<Span>, next': nat -> Option<Span>, n: nat, d: nat) {
    forall p: nat :: p <= n ==> FenceMoved(next, next', d, p)
  }

  /** Scanning on from a position does not look back. */
  lemma {:induction false} FencesMove(next: nat -> Option<Span>, next': nat -> Option<Span>, n: nat, d: nat, pos: nat)
    requires pos <= n && FencesMoved(next, next', n, d)
    ensures FencesFrom(next', d + n, d + pos) == MovedSpans(FencesFrom(next, n, pos), d)
    decreases n - pos
  {
    assert FenceMoved(next, next', d, pos);
    if Reports(next, n, pos) {
      FencesMove(next, next', n, d, next(pos).value.end);
    }
  }

  lemma FenceFindersMoved(head: string, s: string, open: string, close: string)
    ensures FencesMoved(FenceFinder(s, open, close), FenceFinder(head + s, open, close), |s|, |head|)
  {
    forall p: nat | p <= |s|
      ensures FenceMoved(FenceFinder(s, open, close), FenceFinder(head + s, open, close), |head|, p)
    {
      FenceFinderMoves(head, s, open, close, p);
    }
  }

  /** The fences of `s` behind `head`. */
  lemma FencesBehind(head: string, s: string, open: string, close: string)
    ensures FencesIn(head + s, open, close, |head|) == MovedSpans(AllFences(s, open, close), |head|)
  {
    FenceFindersMoved(head, s, open, close);
    FencesMoveAll(FenceFinder(s, open, close), FenceFinder(head + s, open, close), |s|, |head|);
  }

  lemma FencesMoveAll(next: nat -> Option<Span>, next': nat -> Option<Span>, n: nat, d: nat)
    requires FencesMoved(next, next', n, d)
    ensures FencesFrom(next', d + n, d) == MovedSpans(FencesFrom(next, n, 0), d)
  {
    FencesMove(next, next', n, d, 0);
  }

  lemma SliceMoves(head: string, s: string, a: nat, b: nat)
    requires a <= b <= |s|
    ensures (head + s)[|head| + a..|head| + b] == s[a..b]
    ensures (head + s)[|head| + a..] == s[a..]
  {
  }

  /** Cutting fences out of a text that stands behind another. */
  lemma {:induction false} SpliceMoves(head: string, s: string, fences: seq<Span>, k: nat, from: nat)
    requires k <= |fences| && from <= |s| && InOrder(fences, from, |s|, k)
    ensures InOrder(MovedSpans(fences, |head|), |head| + from, |head| + |s|, k)
    ensures Splice(head + s, MovedSpans(fences, |head|), k, "", |head| + from) == Splice(s, fences, k, "", from)
    decreases |fences| - k
  {
    if k < |fences| {
      SpliceMoves(head, s, fences, k + 1, fences[k].end);
      SliceMoves(head, s, from, fences[k].start);
    } else {
      SliceMoves(head, s, from, from);
    }
  }

  lemma ConsAt<T>(x: T, rest: seq<T>, k: nat)
    requires k < |rest|
    ensures ([x] + rest)[k + 1] == rest[k]
  {
  }

  lemma {:induction false} SpliceCons(t: string, x: Span, fences: seq<Span>, k: nat, m: string, from: nat)
    requires k <= |fences| && from <= |t| && InOrder(fences, from, |t|, k)
    ensures InOrder([x] + fences, from, |t|, k + 1)
    ensures Splice(t, [x] + fences, k + 1, m, from) == Splice(t, fences, k, m, from)
    decreases |fences| - k
  {
    if k < |fences| {
      SpliceCons(t, x, fences, k + 1, m, fences[k].end);
      ConsAt(x, fences, k);
    }
  }

  /** `held'` gives for a fence moved by `d` what `held` gives for the fence. */
  predicate SameHeld<T(==)>(held: Span -> T, held': Span -> T, d: nat, f: Span) {
    held'(MovedSpan(f, d)) == held(f)
  }

  lemma {:induction false} MapMoves<T>(held: Span -> T, held': Span -> T, d: nat, fences: seq<Span>, k: nat)
    requires k <= |fences| && forall i :: 0 <= i < |fences| ==> SameHeld(held, held', d, fences[i])
    ensures MapFrom(held', MovedSpans(fences, d), k) == MapFrom(held, fences, k)
    decreases |fences| - k
  {
    if k < |fences| {
      MapMoves(held, held', d, fences, k + 1);
      assert SameHeld(held, held', d, fences[k]);
    }
  }

  lemma HeldMoves(head: string, s: string, tag: nat, skip: nat, fences: seq<Span>)
    requires forall i :: 0 <= i < |fences| ==> fences[i].end <= |s|
    ensures MapFrom(Held(head + s, tag, skip), MovedSpans(fences, |head|), 0) == MapFrom(Held(s, tag, skip), fences, 0)
  {
    forall i | 0 <= i < |fences| ensures SameHeld(Held(s, tag, skip), Held(head + s, tag, skip), |head|, fences[i]) {
      HeldOneMoves(head, s, tag, skip, fences[i]);
    }
    MapMoves(Held(s, tag, skip), Held(head + s, tag, skip), |head|, fences, 0);
  }

  lemma HeldOneMoves(head: string, s: string, tag: nat, skip: nat, f: Span)
    requires f.end <= |s|
    ensures SameHeld(Held(s, tag, skip), Held(head + s, tag, skip), |head|, f)
  {
    if f.start + tag + skip <= f.end {
      SliceMoves(head, s, f.start + tag, f.end - skip);
    }
  }

  lemma {:induction false} InOrderBounds(fences: seq<Span>, lo: nat, hi: nat, k: nat)
    requires k <= |fences| && InOrder(fences, lo, hi, k)
    ensures lo <= hi && forall i :: k <= i < |fences| ==> fences[i].end <= hi
    decreases |fences| - k
  {
    if k < |fences| {
      InOrderBounds(fences, fences[k].end, hi, k + 1);
    }
  }

  // ---- one fence, or plain text, at the front ----------------------------------------

  /** `inside` fenced, after `head` and before `rest`. */
  function Fenced(head: string, inside: string, open: string, close: string, rest: string): string {
    head + (open + (inside + (close + rest)))
  }

  lemma FirstFence(head: string, inside: string, open: string, close: string, rest: string)
    requires TagPair(open, close) && NoTagStart(head) && Contained(inside, close)
    ensures var s := Fenced(head, inside, open, close, rest);
            FenceFinder(s, open, close)(0) == Some(Span(|head|, |head| + |open| + |inside| + |close|))
  {
    OpenFound(head, open, inside + (close + rest));
    CloseFound(inside, open, close, rest);
    FindFromSkips(head, open + (inside + (close + rest)), close, 0);
  }

  /** `head` and the fence around `inside`, up to what follows. */
  function Front(head: string, inside: string, open: string, close: string): string {
    head + (open + (inside + close))
  }

  lemma FencedIsFront(head: string, inside: string, open: string, close: string, rest: string)
    ensures Fenced(head, inside, open, close, rest) == Front(head, inside, open, close) + rest
  {
    ConcatAssoc(inside, close, rest);
    ConcatAssoc(open, inside + close, rest);
    ConcatAssoc(head, open + (inside + close), rest);
  }

  lemma FrontSlices(head: string, inside: string, open: string, close: string)
    ensures var s := Front(head, inside, open, close);
            && |s| == |head| + |open| + |inside| + |close|
            && s[..|head|] == head && s[|head| + |open|..|s| - |close|] == inside
  {
  }

  lemma FirstOf(next: nat -> Option<Span>, n: nat, f: Span)
    requires next(0) == Some(f) && f.start < f.end <= n
    ensures FencesFrom(next, n, 0) == [f] + FencesFrom(next, n, f.end)
  {
  }

  /** The first fence ends with `front`; the others are those of what follows. */
  lemma FencesAfterFirst(front: string, rest: string, open: string, close: string, start: nat)
    requires FenceFinder(front + rest, open, close)(0) == Some(Span(start, |front|)) && start < |front|
    ensures AllFences(front + rest, open, close)
            == [Span(start, |front|)] + MovedSpans(AllFences(rest, open, close), |front|)
  {
    FirstOf(FenceFinder(front + rest, open, close), |front| + |rest|, Span(start, |front|));
    FencesBehind(front, rest, open, close);
  }

  /** Cutting the first fence out leaves what is before it and what is left behind it. */
  lemma CutFirst(front: string, rest: string, start: nat, fences: seq<Span>)
    requires start < |front| && InOrder(fences, 0, |rest|, 0)
    ensures InOrder([Span(start, |front|)] + MovedSpans(fences, |front|), 0, |front + rest|, 0)
    ensures Splice(front + rest, [Span(start, |front|)] + MovedSpans(fences, |front|), 0, "", 0)
            == front[..start] + Splice(rest, fences, 0, "", 0)
  {
    SpliceMoves(front, rest, fences, 0, 0);
    SpliceFirst(front + rest, Span(start, |front|), MovedSpans(fences, |front|));
    assert (front + rest)[0..start] == front[..start];
  }

  lemma SpliceFirst(t: string, f: Span, fences: seq<Span>)
    requires f.start < f.end <= |t| && InOrder(fences, f.end, |t|, 0)
    ensures InOrder([f] + fences, 0, |t|, 0)
    ensures Splice(t, [f] + fences, 0, "", 0) == t[0..f.start] + Splice(t, fences, 0, "", f.end)
  {
    SpliceCons(t, f, fences, 0, "", f.end);
    NothingBefore(Splice(t, fences, 0, "", f.end));
  }

  lemma NothingBefore(s: string)
    ensures "" + s == s
  {
  }

  /** One fence at the front is cut out, and the scan goes on behind it. */
  lemma OutsideFenced(head: string, inside: string, open: string, close: string, rest: string)
    requires TagPair(open, close) && NoTagStart(head) && Contained(inside, close)
    ensures Outside(Fenced(head, inside, open, close, rest), open, close) == head + Outside(rest, open, close)
  {
    var front := Front(head, inside, open, close);
    FirstFence(head, inside, open, close, rest);
    FencedIsFront(head, inside, open, close, rest);
    FrontSlices(head, inside, open, close);
    FencesAfterFirst(front, rest, open, close, |head|);
    CutFirst(front, rest, |head|, AllFences(rest, open, close));
  }

  lemma {:induction false} MapCons<T, U>(f: T -> U, x: T, s: seq<T>, k: nat)
    requires k <= |s|
    ensures MapFrom(f, [x] + s, k + 1) == MapFrom(f, s, k)
    decreases |s| - k
  {
    if k < |s| {
      MapCons(f, x, s, k + 1);
      ConsTail(x, s);
    }
  }

  lemma MapFirst<T, U>(f: T -> U, x: T, s: seq<T>, y: U, rest: seq<U>)
    requires f(x) == y && MapFrom(f, s, 0) == rest
    ensures MapFrom(f, [x] + s, 0) == [y] + rest
  {
    MapCons(f, x, s, 0);
  }

  /** What the fence at the front holds. */
  lemma HeldAtFront(head: string, inside: string, open: string, close: string, rest: string)
    ensures var front := Front(head, inside, open, close);
            Held(front + rest, |open|, |close|)(Span(|head|, |front|)) == inside
  {
    var front := Front(head, inside, open, close);
    FrontSlices(head, inside, open, close);
    assert (front + rest)[|head| + |open|..|front| - |close|] == front[|head| + |open|..|front| - |close|];
  }

  lemma InsideFenced(head: string, inside: string, open: string, close: string, rest: string)
    requires TagPair(open, close) && NoTagStart(head) && Contained(inside, close)
    ensures Inside(Fenced(head, inside, open, close, rest), open, close) == [inside] + Inside(rest, open, close)
  {
    var front, fences := Front(head, inside, open, close), AllFences(rest, open, close);
    FirstFence(head, inside, open, close, rest);
    FencedIsFront(head, inside, open, close, rest);
    FencesAfterFirst(front, rest, open, close, |head|);
    InOrderBounds(fences, 0, |rest|, 0);
    HeldMoves(front, rest, |open|, |close|, fences);
    HeldAtFront(head, inside, open, close, rest);
    MapFirst(Held(front + rest, |open|, |close|), Span(|head|, |front|), MovedSpans(fences, |front|), inside,
             Inside(rest, open, close));
  }

  lemma FirstIsBehind(head: string, s: string, open: string, close: string)
    requires TagPair(open, close) && NoTagStart(head)
    ensures FenceFinder(head + s, open, close)(0) == FenceFinder(head + s, open, close)(|head|)
    ensures var f := FenceFinder(head + s, open, close)(|head|); f.Some? ==> |head| <= f.value.start
  {
    forall k | 0 <= k < |head| ensures !IsAt(head + s, open, k) {
      NotAt(head + s, open, k, 0);
    }
    FindLater(head + s, open, 0, |head|);
  }

  lemma SameFrom0(next: nat -> Option<Span>, n: nat, k: nat)
    requires k <= n && next(0) == next(k) && (next(k).Some? ==> k <= next(k).value.start)
    ensures FencesFrom(next, n, 0) == FencesFrom(next, n, k)
  {
  }

  /** Text in which no tag begins adds no fence. */
  lemma FencesOfPlain(head: string, s: string, open: string, close: string)
    requires TagPair(open, close) && NoTagStart(head)
    ensures AllFences(head + s, open, close) == MovedSpans(AllFences(s, open, close), |head|)
  {
    FirstIsBehind(head, s, open, close);
    SameFrom0(FenceFinder(head + s, open, close), |head| + |s|, |head|);
    FencesBehind(head, s, open, close);
  }

  lemma OutsidePlain(head: string, s: string, open: string, close: string)
    requires TagPair(open, close) && NoTagStart(head)
    ensures Outside(head + s, open, close) == head + Outside(s, open, close)
  {
    var fences := AllFences(s, open, close);
    FencesOfPlain(head, s, open, close);
    SpliceMoves(head, s, fences, 0, 0);
    SpliceFromEarlier(head + s, MovedSpans(fences, |head|), 0, "", 0, |head|);
    assert (head + s)[0..|head|] == head;
  }

  lemma InsidePlain(head: string, s: string, open: string, close: string)
    requires TagPair(open, close) && NoTagStart(head)
    ensures Inside(head + s, open, close) == Inside(s, open, close)
  {
    var fences := AllFences(s, open, close);
    FencesOfPlain(head, s, open, close);
    InOrderBounds(fences, 0, |s|, 0);
    HeldMoves(head, s, |open|, |close|, fences);
  }

  // ---- a text without fences ---------------------------------------------------------

  /** The text opens a fence and closes it again. */
  ghost predicate HasPair(s: string, open: string, close: string) {
    exists i, j :: 0 <= i <= j && IsAt(s, open, i) && IsAt(s, close, j)
  }

  lemma FirstFenceIff(s: string, open: string, close: string)
    ensures FenceFinder(s, open, close)(0).None? <==> !HasPair(s, open, close)
    ensures var f := FenceFinder(s, open, close)(0);
            f.Some? ==> f.value.start + |close| <= f.value.end <= |s|
  {
    FindIsFirst(s, open, 0);
    var start := Find(s, open, 0);
    if start.Some? {
      FindIsFirst(s, close, start.value);
      var end := Find(s, close, start.value);
      if end.Some? {
        assert IsAt(s, open, start.value) && IsAt(s, close, end.value);
      }
    }
  }

  lemma NoFenceIff(s: string, open: string, close: string)
    requires close != []
    ensures AllFences(s, open, close) == [] <==> !HasPair(s, open, close)
    ensures Inside(s, open, close) == [] <==> !HasPair(s, open, close)
    ensures !HasPair(s, open, close) ==> Outside(s, open, close) == s
  {
    FirstFenceIff(s, open, close);
    MapFromLength(Held(s, |open|, |close|), AllFences(s, open, close), 0);
  }
}
