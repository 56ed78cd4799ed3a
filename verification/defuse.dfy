/** `_defuse`: replace every piece of prompt grammar, and nothing else
    (knowledge_desk/providers.py:140-183). */
module Defusing {
  import opened Text
  import opened Normalize
  import opened Grammar

  /** `finditer` over `n` characters, for a matcher that says where a match at a position
      ends: leftmost, non-overlapping. */
  function FindAll(m: nat -> Option<nat>, n: nat, from: nat): seq<Span>
    decreases n - from
  {
    if from >= n then []
    else if m(from).Some? && m(from).value > from then
      [Span(from, m(from).value)] + FindAll(m, n, m(from).value)
    else FindAll(m, n, from + 1)
  }

  /** Matches are non-empty and end inside the text. */
  ghost predicate Progresses(m: nat -> Option<nat>, n: nat) {
    forall i: nat :: m(i).Some? ==> i < m(i).value <= n
  }

  /** No match starts outside `spans[k..]`, looking from `from` on. */
  ghost predicate NoMatchInGaps(m: nat -> Option<nat>, n: nat, spans: seq<Span>, k: nat, from: nat)
    requires k <= |spans|
    decreases |spans| - k
  {
    if k == |spans| then forall i: nat :: from <= i ==> m(i).None?
    else
      && (forall i: nat :: from <= i < spans[k].start ==> m(i).None?)
      && NoMatchInGaps(m, n, spans, k + 1, spans[k].end)
  }

  lemma {:induction false} GapsCons(m: nat -> Option<nat>, n: nat, x: Span, spans: seq<Span>, k: nat, from: nat)
    requires k <= |spans| && NoMatchInGaps(m, n, spans, k, from)
    ensures NoMatchInGaps(m, n, [x] + spans, k + 1, from)
    decreases |spans| - k
  {
    if k < |spans| {
      GapsCons(m, n, x, spans, k + 1, spans[k].end);
    }
  }

  /** What `finditer` reports is sorted, disjoint and non-empty, and leaves no match behind. */
  lemma {:induction false} FindAllComplete(m: nat -> Option<nat>, n: nat, from: nat)
    requires from <= n && Progresses(m, n)
    ensures InOrder(FindAll(m, n, from), from, n, 0)
    ensures NoMatchInGaps(m, n, FindAll(m, n, from), 0, from)
    decreases n - from
  {
    if from < n {
      if m(from).Some? {
        var next := m(from).value;
        var rest := FindAll(m, n, next);
        FindAllComplete(m, n, next);
        GapsCons(m, n, Span(from, next), rest, 0, next);
        InOrderCons(Span(from, next), rest, next, n, 0);
      } else {
        FindAllComplete(m, n, from + 1);
      }
    }
  }

  lemma {:induction false} FirstIsAMatch(m: nat -> Option<nat>, n: nat, from: nat)
    requires FindAll(m, n, from) != []
    ensures m(FindAll(m, n, from)[0].start).Some?
    decreases n - from
  {
    if !(m(from).Some? && m(from).value > from) {
      FirstIsAMatch(m, n, from + 1);
    }
  }

  /** The matcher of `p` on `f`. */
  function Matcher(A: Alphabet, p: Pattern, f: string): nat -> Option<nat> {
    (i: nat) => if i <= |f| then MatchAt(A, p, f, i) else None
  }

  lemma MatcherProgresses(A: Alphabet, p: Pattern, f: string)
    ensures Progresses(Matcher(A, p, f), |f|)
  {
    forall i: nat | Matcher(A, p, f)(i).Some? ensures i < Matcher(A, p, f)(i).value <= |f| {
      var q := MatcherSound(A, p, f, i);
    }
  }

  lemma MatchIsReported(A: Alphabet, p: Pattern, f: string, i: nat)
    requires Sane(A) && MatchesAt(A, p, f, i)
    ensures Matcher(A, p, f)(i).Some?
  {
    var q :| MatchesWith(A, p, f, i, q);
    MatcherComplete(A, p, f, i, q);
  }

  /** The spans of `p` in `f`. */
  function Spans(A: Alphabet, p: Pattern, f: string): seq<Span> {
    FindAll(Matcher(A, p, f), |f|, 0)
  }

  /** `finditer` finds nothing exactly when the expression matches nowhere. */
  lemma SpansEmptyIff(A: Alphabet, p: Pattern, f: string)
    requires Sane(A)
    ensures Spans(A, p, f) == [] <==> !Occurs(A, p, f)
  {
    var m := Matcher(A, p, f);
    MatcherProgresses(A, p, f);
    FindAllComplete(m, |f|, 0);
    if Spans(A, p, f) == [] {
      forall i: nat, q ensures !MatchesWith(A, p, f, i, q) {
        if MatchesWith(A, p, f, i, q) {
          assert MatchesAt(A, p, f, i);
          MatchIsReported(A, p, f, i);
        }
      }
    } else {
      FirstIsAMatch(m, |f|, 0);
      var q := MatcherSound(A, p, f, Spans(A, p, f)[0].start);
    }
  }

  // ---- replacing matches creates no new ones -----------------------------------------

  /** A replacement marker: small letters and spaces in brackets. It has none of the
      characters the expressions hang on, except the brackets themselves. */
  predicate MarkerOk(m: string) {
    && |m| >= 3 && m[0] == '[' && m[|m| - 1] == ']' && 'a' <= m[1] <= 'z'
    && (forall x :: 0 < x < |m| - 1 ==> 'a' <= m[x] <= 'z' || m[x] == ' ')
  }

  /** `p` matches nowhere in `s`, where `s` may continue a line (`bol` false), in which case
      its first position does not count as a line start. */
  ghost predicate Clean(A: Alphabet, p: Pattern, s: string, bol: bool) {
    forall i: nat, q :: MatchesWith(A, p, s, i, q) ==> p.PathLine? && i == 0 && !bol
  }

  function Shift(q: Cuts, d: int): Cuts
    requires q.FenceCuts? ==>
               && q.a + d >= 0 && q.b + d >= 0 && q.c + d >= 0 && q.d + d >= 0
               && q.e + d >= 0 && q.g + d >= 0 && q.h + d >= 0
    requires !q.FenceCuts? ==> q.a + d >= 0 && q.b + d >= 0
    requires q.CitationCuts? ==> q.c + d >= 0
    requires q.end + d >= 0
  {
    match q
    case FenceCuts(a, b, c, d', e, g, h, end) => FenceCuts(a + d, b + d, c + d, d' + d, e + d, g + d, h + d, end + d)
    case CitationCuts(a, b, c, end) => CitationCuts(a + d, b + d, c + d, end + d)
    case PathCuts(a, b, end) => PathCuts(a + d, b + d, end + d)
  }

  /** `t` shows the characters of `s[i..j]`, `d` places further on. */
  predicate SameFrom(s: string, i: nat, j: nat, t: string, d: int) {
    && 0 <= i + d && i <= j <= |s| && j + d <= |t|
    && forall y {:trigger t[y]} :: i + d <= y < j + d ==> t[y] == s[y - d]
  }

  lemma RunMoves(A: Alphabet, s: string, cl: Class, i: nat, j: nat, t: string, d: int, lo: nat, hi: nat)
    requires lo <= i <= j <= hi && RunOf(A, s, cl, i, j) && SameFrom(s, lo, hi, t, d)
    ensures RunOf(A, t, cl, i + d, j + d)
  {
  }

  lemma WordMoves(A: Alphabet, s: string, i: nat, w: string, t: string, d: int, lo: nat, hi: nat)
    requires lo <= i && i + |w| <= hi && Word(A, s, i, w) && SameFrom(s, lo, hi, t, d)
    ensures Word(A, t, i + d, w)
  {
    forall x | 0 <= x < |w| ensures A.upper(t[i + d + x]) == w[x] {
      assert t[i + d + x] == s[i + x];
    }
  }

  lemma OpenMoves(A: Alphabet, s: string, i: nat, a: nat, b: nat, c: nat, d: nat, t: string, k: int, hi: nat)
    requires FenceOpen(A, s, i, a, b, c, d) && d <= hi && SameFrom(s, i, hi, t, k)
    ensures FenceOpen(A, t, i + k, a + k, b + k, c + k, d + k)
  {
    RunMoves(A, s, Lt, i, a, t, k, i, hi);
    RunMoves(A, s, Space, a, b, t, k, i, hi);
    RunMoves(A, s, Space, c, d, t, k, i, hi);
    if c != b {
      assert t[b + k] == s[b];
    }
  }

  lemma WordsMove(A: Alphabet, s: string, d: nat, e: nat, g: nat, t: string, k: int, lo: nat, hi: nat)
    requires FenceWords(A, s, d, e, g) && lo <= d && g + 8 <= hi && SameFrom(s, lo, hi, t, k)
    ensures FenceWords(A, t, d + k, e + k, g + k)
  {
    if e != d {
      WordMoves(A, s, d, END_WORD, t, k, lo, hi);
      RunMoves(A, s, Sep, d + 3, e, t, k, lo, hi);
    }
    WordMoves(A, s, e, UNTRUSTED_WORD, t, k, lo, hi);
    RunMoves(A, s, Sep, e + 9, g, t, k, lo, hi);
    WordMoves(A, s, g, DOCUMENT_WORD, t, k, lo, hi);
  }

  lemma PrefixMoves(A: Alphabet, s: string, i: nat, q: Cuts, t: string, d: int, hi: nat)
    requires q.FenceCuts? && FencePrefix(A, s, i, q) && q.g + 8 <= hi && SameFrom(s, i, hi, t, d)
    requires q.h >= q.g && q.end >= q.g
    ensures FencePrefix(A, t, i + d, Shift(q, d))
  {
    OpenMoves(A, s, i, q.a, q.b, q.c, q.d, t, d, hi);
    WordsMove(A, s, q.d, q.e, q.g, t, d, i, hi);
  }

  /** A match moves with its characters. */
  lemma MatchMoves(A: Alphabet, p: Pattern, s: string, i: nat, q: Cuts, t: string, d: int)
    requires MatchesWith(A, p, s, i, q) && q.end <= |s| && i <= q.end && SameFrom(s, i, q.end, t, d)
    requires p.PathLine? ==> LineStart(t, i + d)
    ensures MatchesWith(A, p, t, i + d, Shift(q, d))
  {
    match p
    case Fence =>
      PrefixMoves(A, s, i, q, t, d, q.end);
      RunMoves(A, s, NotGt, q.g + 8, q.h, t, d, i, q.end);
      RunMoves(A, s, Gt, q.h, q.end, t, d, i, q.end);
    case Citation =>
      RunMoves(A, s, Space, i + 1, q.a, t, d, i, q.end);
      RunMoves(A, s, Digit, q.a, q.b, t, d, i, q.end);
      RunMoves(A, s, Space, q.b, q.c, t, d, i, q.end);
      assert t[i + d] == s[i] && t[q.c + d] == s[q.c];
    case PathLine =>
      RunMoves(A, s, Space, i, q.a, t, d, i, q.end);
      WordMoves(A, s, q.a, PATH_WORD, t, d, i, q.end);
      RunMoves(A, s, Space, q.a + 4, q.b, t, d, i, q.end);
      assert t[q.b + d] == s[q.b];
  }

  // ---- where a match can lie in a spliced text ---------------------------------------

  lemma WordHasNoBracket(A: Alphabet, f: string, i: nat, w: string)
    requires Sane(A) && Word(A, f, i, w) && forall x :: 0 <= x < |w| ==> IsLetter(w[x])
    ensures forall x :: i <= x < i + |w| ==> f[x] != '['
  {
    forall x | i <= x < i + |w| ensures f[x] != '[' {
      assert f[i + (x - i)] == f[x];
      assert A.upper(f[i + (x - i)]) == w[x - i];
      assert IsPunctuation('[');
    }
  }

  lemma RunHasNoBracket(A: Alphabet, f: string, cl: Class, i: nat, j: nat)
    requires Sane(A) && RunOf(A, f, cl, i, j) && (cl.Lt? || cl.Space? || cl.Sep? || cl.Digit?)
    ensures forall x :: i <= x < j ==> f[x] != '['
  {
    assert IsPunctuation('[');
  }

  lemma WordsAreLetters()
    ensures forall x :: 0 <= x < |END_WORD| ==> IsLetter(END_WORD[x])
    ensures forall x :: 0 <= x < |UNTRUSTED_WORD| ==> IsLetter(UNTRUSTED_WORD[x])
    ensures forall x :: 0 <= x < |DOCUMENT_WORD| ==> IsLetter(DOCUMENT_WORD[x])
    ensures forall x :: 0 <= x < |PATH_WORD| ==> IsLetter(PATH_WORD[x])
  {
  }

  /** How far the part of a match reaches that cannot hold a `[` after its first character. */
  function Core(p: Pattern, q: Cuts): nat {
    if p.Fence? && q.FenceCuts? then q.g + 8 else q.end
  }

  lemma FencePrefixHasNoBracket(A: Alphabet, s: string, i: nat, q: Cuts)
    requires Sane(A) && q.FenceCuts? && FencePrefix(A, s, i, q)
    ensures forall x :: i <= x < q.g + 8 ==> s[x] != '['
  {
    WordsAreLetters();
    RunHasNoBracket(A, s, Lt, i, q.a);
    RunHasNoBracket(A, s, Space, q.a, q.b);
    RunHasNoBracket(A, s, Space, q.c, q.d);
    if q.e != q.d {
      WordHasNoBracket(A, s, q.d, END_WORD);
      RunHasNoBracket(A, s, Sep, q.d + 3, q.e);
    }
    WordHasNoBracket(A, s, q.e, UNTRUSTED_WORD);
    RunHasNoBracket(A, s, Sep, q.e + 9, q.g);
    WordHasNoBracket(A, s, q.g, DOCUMENT_WORD);
  }

  lemma CoreHasNoBracket(A: Alphabet, p: Pattern, s: string, i: nat, q: Cuts)
    requires Sane(A) && MatchesWith(A, p, s, i, q)
    ensures i < Core(p, q) <= q.end <= |s|
    ensures forall x :: i < x < Core(p, q) ==> s[x] != '['
    ensures s[i] == '[' ==> p.Citation?
  {
    match p
    case Fence =>
      FencePrefixHasNoBracket(A, s, i, q);
    case Citation =>
      RunHasNoBracket(A, s, Space, i + 1, q.a);
      RunHasNoBracket(A, s, Digit, q.a, q.b);
      RunHasNoBracket(A, s, Space, q.b, q.c);
    case PathLine =>
      WordsAreLetters();
      RunHasNoBracket(A, s, Space, i, q.a);
      WordHasNoBracket(A, s, q.a, PATH_WORD);
      RunHasNoBracket(A, s, Space, q.a + 4, q.b);
  }

  /** How a match begins. */
  lemma MatchStart(A: Alphabet, p: Pattern, s: string, i: nat, q: Cuts)
    requires Sane(A) && MatchesWith(A, p, s, i, q)
    ensures i < |s| && (p.Fence? ==> s[i] == '<') && (p.PathLine? ==> LineStart(s, i) && s[i] != '[')
    ensures p.Citation? ==> s[i] == '[' && i + 1 < |s| && !('a' <= s[i + 1] <= 'z')
  {
    CoreHasNoBracket(A, p, s, i, q);
    match p
    case Fence => assert In(A, Lt, s[i]);
    case Citation => assert In(A, if q.a > i + 1 then Space else Digit, s[i + 1]);
    case PathLine =>
  }

  /** No match starts inside a marker. */
  lemma NoMatchInMarker(A: Alphabet, p: Pattern, s: string, i: nat, q: Cuts, m: string, at: nat)
    requires Sane(A) && MarkerOk(m) && at + |m| <= |s| && SameFrom(m, 0, |m|, s, at)
    requires at <= i < at + |m|
    ensures !MatchesWith(A, p, s, i, q)
  {
    assert s[i] == m[i - at];
    assert i > at ==> s[i - 1] == m[i - 1 - at];
    assert s[at + 1] == m[1];
    if MatchesWith(A, p, s, i, q) {
      MatchStart(A, p, s, i, q);
    }
  }

  /** Splicing in a marker without a `>` keeps no `>` that was not there. */
  lemma {:induction false} CloseSurvives(f: string, spans: seq<Span>, k: nat, m: string, from: nat, x: nat)
    returns (y: nat)
    requires k <= |spans| && from <= |f| && InOrder(spans, from, |f|, k) && MarkerOk(m)
    requires x < |Splice(f, spans, k, m, from)| && Splice(f, spans, k, m, from)[x] == '>'
    ensures from <= y < |f| && f[y] == '>'
    ensures k == |spans| || x < spans[k].start - from ==> y == from + x
    ensures k < |spans| && x >= spans[k].start - from ==> y >= spans[k].end
    decreases |spans| - k
  {
    if k == |spans| || x < spans[k].start - from {
      y := from + x;
    } else {
      var rest := Splice(f, spans, k + 1, m, spans[k].end);
      var off := spans[k].start - from;
      assert Splice(f, spans, k, m, from)[x] == (m + rest)[x - off];
      assert x - off >= |m|;
      y := CloseSurvives(f, spans, k + 1, m, spans[k].end, x - off - |m|);
    }
  }

  /** A fence prefix followed anywhere by `>` is a fence match. */
  lemma PrefixThenClose(A: Alphabet, f: string, i: nat, q: Cuts, y: nat)
    requires q.FenceCuts? && FencePrefix(A, f, i, q) && q.g + 8 <= y < |f| && f[y] == '>'
    ensures MatchesAt(A, Fence, f, i)
  {
    var h := RunEnd(A, f, NotGt, q.g + 8);
    assert h <= y by {
      assert !In(A, NotGt, f[y]);
    }
    var r := FenceCuts(q.a, q.b, q.c, q.d, q.e, q.g, h, h + 1);
    assert FencePrefix(A, f, i, r);
    assert MatchesWith(A, Fence, f, i, r);
  }

  /** Where the next replaced span begins, or the end of the text. */
  function GapEnd(f: string, spans: seq<Span>, k: nat): nat
    requires k <= |spans|
  {
    if k == |spans| then |f| else spans[k].start
  }

  lemma GapIsOriginal(f: string, spans: seq<Span>, k: nat, m: string, from: nat)
    requires k <= |spans| && from <= |f| && InOrder(spans, from, |f|, k) && MarkerOk(m)
    ensures from <= GapEnd(f, spans, k) <= |f|
    ensures SameFrom(Splice(f, spans, k, m, from), 0, GapEnd(f, spans, k) - from, f, from)
    ensures var s, gap := Splice(f, spans, k, m, from), GapEnd(f, spans, k) - from;
            if k == |spans| then gap == |s| else gap < |s| && s[gap] == '['
  {
  }

  /** A match in the spliced text that starts in a stretch of original text was already a
      match of the original. */
  lemma GapMatchWasThere(A: Alphabet, p: Pattern, f: string, spans: seq<Span>, k: nat, m: string, from: nat, i: nat,
                         q: Cuts)
    requires Sane(A) && MarkerOk(m)
    requires k <= |spans| && from <= |f| && InOrder(spans, from, |f|, k)
    requires MatchesWith(A, p, Splice(f, spans, k, m, from), i, q)
    requires i < GapEnd(f, spans, k) - from
    requires p.PathLine? && i == 0 ==> LineStart(f, from)
    ensures MatchesAt(A, p, f, from + i)
  {
    var s, gap := Splice(f, spans, k, m, from), GapEnd(f, spans, k) - from;
    GapIsOriginal(f, spans, k, m, from);
    CoreHasNoBracket(A, p, s, i, q);
    if p.Fence? {
      assert In(A, Gt, s[q.h]);
      var y := CloseSurvives(f, spans, k, m, from, q.h);
      FenceInGap(A, s, i, q, gap, f, from, y);
    } else {
      OtherInGap(A, p, s, i, q, gap, f, from);
    }
  }

  lemma FenceInGap(A: Alphabet, s: string, i: nat, q: Cuts, gap: nat, f: string, from: nat, y: nat)
    requires MatchesWith(A, Fence, s, i, q) && i <= q.g + 8 <= gap && SameFrom(s, 0, gap, f, from)
    requires from + q.g + 8 <= y < |f| && f[y] == '>'
    ensures MatchesAt(A, Fence, f, from + i)
  {
    PrefixMoves(A, s, i, q, f, from, gap);
    PrefixThenClose(A, f, from + i, Shift(q, from), y);
  }

  lemma OtherInGap(A: Alphabet, p: Pattern, s: string, i: nat, q: Cuts, gap: nat, f: string, from: nat)
    requires MatchesWith(A, p, s, i, q) && !p.Fence? && i < q.end <= gap && SameFrom(s, 0, gap, f, from)
    requires p.PathLine? && i == 0 ==> LineStart(f, from)
    ensures MatchesAt(A, p, f, from + i)
  {
    assert i > 0 ==> f[from + i - 1] == s[i - 1];
    MatchMoves(A, p, s, i, q, f, from);
  }

  /** If no match of `p` starts outside the replaced spans, none starts anywhere once they
      are replaced: no marker completes, opens or lengthens one. */
  lemma {:induction false} SpliceClean(A: Alphabet, p: Pattern, f: string, spans: seq<Span>, k: nat, m: string,
                                       from: nat, bol: bool)
    requires Sane(A) && MarkerOk(m)
    requires k <= |spans| && from <= |f| && InOrder(spans, from, |f|, k) && (bol ==> from == 0)
    requires NoMatchInGaps(Matcher(A, p, f), |f|, spans, k, from)
    ensures Clean(A, p, Splice(f, spans, k, m, from), bol)
    decreases |spans| - k
  {
    var s := Splice(f, spans, k, m, from);
    var gap := GapEnd(f, spans, k) - from;
    if k < |spans| {
      SpliceClean(A, p, f, spans, k + 1, m, spans[k].end, false);
    }
    forall i: nat, q | MatchesWith(A, p, s, i, q) ensures p.PathLine? && i == 0 && !bol {
      CoreHasNoBracket(A, p, s, i, q);
      if i >= gap {
        NoMatchAfterGap(A, p, f, spans, k, m, from, i, q);
      } else if !p.PathLine? || i > 0 || bol {
        NoMatchInGap(A, p, f, spans, k, m, from, i, q);
      }
    }
  }

  lemma NoMatchInGap(A: Alphabet, p: Pattern, f: string, spans: seq<Span>, k: nat, m: string, from: nat, i: nat,
                     q: Cuts)
    requires Sane(A) && MarkerOk(m)
    requires k <= |spans| && from <= |f| && InOrder(spans, from, |f|, k)
    requires NoMatchInGaps(Matcher(A, p, f), |f|, spans, k, from)
    requires i < GapEnd(f, spans, k) - from
    requires p.PathLine? && i == 0 ==> LineStart(f, from)
    ensures !MatchesWith(A, p, Splice(f, spans, k, m, from), i, q)
  {
    NoReportInGap(A, p, f, spans, k, from, from + i);
    if MatchesWith(A, p, Splice(f, spans, k, m, from), i, q) {
      GapMatchWasThere(A, p, f, spans, k, m, from, i, q);
      MatchIsReported(A, p, f, from + i);
    }
  }

  lemma NoReportInGap(A: Alphabet, p: Pattern, f: string, spans: seq<Span>, k: nat, from: nat, x: nat)
    requires k <= |spans| && NoMatchInGaps(Matcher(A, p, f), |f|, spans, k, from)
    requires from <= x && (k < |spans| ==> x < spans[k].start)
    ensures Matcher(A, p, f)(x).None?
  {
  }

  lemma NoMatchAfterGap(A: Alphabet, p: Pattern, f: string, spans: seq<Span>, k: nat, m: string, from: nat, i: nat,
                        q: Cuts)
    requires Sane(A) && MarkerOk(m)
    requires k <= |spans| && from <= |f| && InOrder(spans, from, |f|, k)
    requires k < |spans| ==> Clean(A, p, Splice(f, spans, k + 1, m, spans[k].end), false)
    requires GapEnd(f, spans, k) - from <= i < |Splice(f, spans, k, m, from)|
    ensures !MatchesWith(A, p, Splice(f, spans, k, m, from), i, q)
  {
    var s := Splice(f, spans, k, m, from);
    if k < |spans| {
      var gap := spans[k].start - from;
      var rest := Splice(f, spans, k + 1, m, spans[k].end);
      SpliceParts(f[from..spans[k].start], m, rest);
      if i < gap + |m| {
        NoMatchInMarker(A, p, s, i, q, m, gap);
      } else {
        NoMatchInRest(A, p, s, i, q, rest, gap + |m|);
      }
    }
  }

  lemma SpliceParts(head: string, m: string, rest: string)
    ensures SameFrom(m, 0, |m|, head + (m + rest), |head|)
    ensures SameFrom(head + (m + rest), |head| + |m|, |head| + |m| + |rest|, rest, -(|head| + |m|))
    ensures m != [] ==> (head + (m + rest))[|head| + |m| - 1] == m[|m| - 1]
  {
  }

  lemma NoMatchInRest(A: Alphabet, p: Pattern, s: string, i: nat, q: Cuts, rest: string, d: int)
    requires Sane(A) && Clean(A, p, rest, false)
    requires 0 < d <= i && d + |rest| == |s| && SameFrom(s, d, |s|, rest, -d) && s[d - 1] != '\n'
    ensures !MatchesWith(A, p, s, i, q)
  {
    if MatchesWith(A, p, s, i, q) {
      CoreHasNoBracket(A, p, s, i, q);
      assert i > d ==> rest[i - 1 - d] == s[i - 1];
      assert p.PathLine? ==> LineStart(rest, i - d);
      MatchMoves(A, p, s, i, q, rest, -d);
    }
  }

  // ---- the pass over the three expressions -------------------------------------------

  function Marker(p: Pattern): (m: string)
    ensures MarkerOk(m)
  {
    match p
    case Fence => "[marker removed]"
    case Citation => "[citation removed]"
    case PathLine => "[path line removed]"
  }

  const GRAMMAR: seq<Pattern> := [Fence, Citation, PathLine]

  lemma {:induction false} AsciiFoldsToItself(A: Alphabet, s: string, n: nat)
    requires Sane(A) && n <= |s| && forall x :: 0 <= x < n ==> ' ' <= s[x] <= '~' || s[x] == '\n'
    ensures FoldRange(A, s, 0, n) == s[..n]
  {
    if n > 0 {
      AsciiFoldsToItself(A, s, n - 1);
    }
  }

  lemma MarkerFoldsToItself(A: Alphabet, p: Pattern)
    requires Sane(A)
    ensures Folded(A, Marker(p)) == Marker(p)
  {
    AsciiFoldsToItself(A, Marker(p), |Marker(p)|);
  }

  /** The spans of `p` in the folded text, as spans of the text itself. */
  function TextSpans(A: Alphabet, p: Pattern, text: string): (r: seq<Span>)
    ensures InOrder(r, 0, |text|, 0)
    ensures |r| == |Spans(A, p, Folded(A, text))|
  {
    MatcherProgresses(A, p, Folded(A, text));
    FindAllComplete(Matcher(A, p, Folded(A, text)), |Folded(A, text)|, 0);
    MappedSpansInOrder(A, text, Spans(A, p, Folded(A, text)), 0, 0);
    OriginalSpans(OriginOf(A, text, |text|), Spans(A, p, Folded(A, text)), |text|)
  }

  /** One turn of the loop: the text with every match of `p` replaced. */
  function DefusePass(A: Alphabet, p: Pattern, text: string): string {
    Splice(text, TextSpans(A, p, text), 0, Marker(p), 0)
  }

  /** `_defuse` after its first `n` expressions: the text and how many spans were replaced. */
  function DefuseUpTo(A: Alphabet, n: nat, text: string): (string, nat)
    requires n <= |GRAMMAR|
  {
    if n == 0 then (text, 0)
    else
      var before := DefuseUpTo(A, n - 1, text);
      (DefusePass(A, GRAMMAR[n - 1], before.0), before.1 + |TextSpans(A, GRAMMAR[n - 1], before.0)|)
  }

  function Defused(A: Alphabet, text: string): (string, nat) {
    DefuseUpTo(A, |GRAMMAR|, text)
  }

  method Defuse(A: Alphabet, text: string) returns (r: string, total: nat)
    ensures r == Defused(A, text).0 && total == Defused(A, text).1
  {
    r, total := text, 0;
    for i := 0 to |GRAMMAR|
      invariant r == DefuseUpTo(A, i, text).0
      invariant total == DefuseUpTo(A, i, text).1
    {
      var next, count := DefuseOne(A, GRAMMAR[i], r);
      r, total := next, total + count;
    }
  }

  /** The body of the loop: fold, match, map the spans back, replace. */
  method DefuseOne(A: Alphabet, p: Pattern, text: string) returns (r: string, count: nat)
    ensures r == DefusePass(A, p, text) && count == |TextSpans(A, p, text)|
  {
    var folded, origin := Fold(A, text);
    var spans := OriginalSpans(origin, Spans(A, p, folded), |text|);
    assert spans == TextSpans(A, p, text);
    r, count := text, |spans|;
    if spans != [] {
      r := ReplaceFolded(text, spans, Marker(p));
    } else {
      SpliceOfNothing(text, Marker(p));
    }
  }

  lemma SpliceOfNothing(t: string, m: string)
    ensures Splice(t, [], 0, m, 0) == t
  {
  }

  /** Folding the output of a pass is replacing the matches in the folded input. */
  lemma FoldedPass(A: Alphabet, p: Pattern, text: string)
    requires Sane(A)
    ensures var f := Folded(A, text);
            && InOrder(Spans(A, p, f), 0, |f|, 0)
            && NoMatchInGaps(Matcher(A, p, f), |f|, Spans(A, p, f), 0, 0)
            && Folded(A, DefusePass(A, p, text)) == Splice(f, Spans(A, p, f), 0, Marker(p), 0)
  {
    var f := Folded(A, text);
    MatcherProgresses(A, p, f);
    FindAllComplete(Matcher(A, p, f), |f|, 0);
    MarkerFoldsToItself(A, p);
    FoldCommutesWithSplice(A, text, Spans(A, p, f), 0, Marker(p), 0);
  }

  lemma {:induction false} NowhereMeansNotInGaps(A: Alphabet, p: Pattern, f: string, spans: seq<Span>, k: nat,
                                                 from: nat)
    requires k <= |spans| && !Occurs(A, p, f)
    ensures NoMatchInGaps(Matcher(A, p, f), |f|, spans, k, from)
    decreases |spans| - k
  {
    forall i: nat ensures Matcher(A, p, f)(i).None? {
      if Matcher(A, p, f)(i).Some? {
        var q := MatcherSound(A, p, f, i);
      }
    }
    if k < |spans| {
      NowhereMeansNotInGaps(A, p, f, spans, k + 1, spans[k].end);
    }
  }

  /** After the pass for `p` its expression matches nowhere. */
  lemma PassRemoves(A: Alphabet, p: Pattern, text: string)
    requires Sane(A)
    ensures !Occurs(A, p, Folded(A, DefusePass(A, p, text)))
  {
    var f := Folded(A, text);
    FoldedPass(A, p, text);
    SpliceClean(A, p, f, Spans(A, p, f), 0, Marker(p), 0, true);
  }

  /** A pass for `p` creates no match of any other expression that was absent. */
  lemma PassPreserves(A: Alphabet, p: Pattern, other: Pattern, text: string)
    requires Sane(A) && !Occurs(A, other, Folded(A, text))
    ensures !Occurs(A, other, Folded(A, DefusePass(A, p, text)))
  {
    var f := Folded(A, text);
    FoldedPass(A, p, text);
    NowhereMeansNotInGaps(A, other, f, Spans(A, p, f), 0, 0);
    SpliceClean(A, other, f, Spans(A, p, f), 0, Marker(p), 0, true);
  }

  /** None of the three expressions matches the folded text. */
  ghost predicate Settled(A: Alphabet, text: string) {
    forall p: Pattern :: !Occurs(A, p, Folded(A, text))
  }

  lemma DefusedIsThreePasses(A: Alphabet, text: string)
    ensures var t1 := DefusePass(A, Fence, text);
            var t2 := DefusePass(A, Citation, t1);
            && Defused(A, text).0 == DefusePass(A, PathLine, t2)
            && Defused(A, text).1
               == |TextSpans(A, Fence, text)| + |TextSpans(A, Citation, t1)| + |TextSpans(A, PathLine, t2)|
  {
    assert DefuseUpTo(A, 0, text) == (text, 0);
    assert DefuseUpTo(A, 1, text).0 == DefusePass(A, Fence, text);
    assert DefuseUpTo(A, 2, text).0 == DefusePass(A, Citation, DefusePass(A, Fence, text));
  }

  /** One pass per expression is enough: afterwards no expression matches the folded text. */
  lemma DefuseSettles(A: Alphabet, text: string)
    requires Sane(A)
    ensures Settled(A, Defused(A, text).0)
  {
    var t1 := DefusePass(A, Fence, text);
    var t2 := DefusePass(A, Citation, t1);
    PassRemoves(A, Fence, text);
    PassRemoves(A, Citation, t1);
    PassRemoves(A, PathLine, t2);
    PassPreserves(A, Citation, Fence, t1);
    PassPreserves(A, PathLine, Fence, t2);
    PassPreserves(A, PathLine, Citation, t2);
    DefusedIsThreePasses(A, text);
    ThreePatterns(A, Folded(A, Defused(A, text).0));
  }

  lemma ThreePatterns(A: Alphabet, f: string)
    requires !Occurs(A, Fence, f) && !Occurs(A, Citation, f) && !Occurs(A, PathLine, f)
    ensures forall p: Pattern :: !Occurs(A, p, f)
  {
    forall p: Pattern ensures !Occurs(A, p, f) {
      match p
      case Fence =>
      case Citation =>
      case PathLine =>
    }
  }

  lemma PassOfSettled(A: Alphabet, p: Pattern, text: string)
    requires Sane(A) && !Occurs(A, p, Folded(A, text))
    ensures TextSpans(A, p, text) == [] && DefusePass(A, p, text) == text
  {
    SpansEmptyIff(A, p, Folded(A, text));
    SpliceOfNothing(text, Marker(p));
  }

  /** Text with nothing to defuse comes back as it was, with a count of zero. */
  lemma SettledIsFixed(A: Alphabet, text: string)
    requires Sane(A) && Settled(A, text)
    ensures Defused(A, text) == (text, 0)
  {
    PassOfSettled(A, Fence, text);
    PassOfSettled(A, Citation, text);
    PassOfSettled(A, PathLine, text);
    DefusedIsThreePasses(A, text);
  }

  /** Defusing twice is defusing once, and the second time finds nothing. */
  lemma DefuseIdempotent(A: Alphabet, text: string)
    requires Sane(A)
    ensures var once := Defused(A, text).0; Defused(A, once) == (once, 0)
  {
    DefuseSettles(A, text);
    SettledIsFixed(A, Defused(A, text).0);
  }

  /** The count is zero exactly when the text is returned unchanged, which is exactly when
      the folded text holds no piece of the grammar. */
  lemma CountIsZeroIff(A: Alphabet, text: string)
    requires Sane(A)
    ensures Defused(A, text).1 == 0 <==> Settled(A, text)
    ensures Defused(A, text).0 == text <==> Settled(A, text)
  {
    DefuseSettles(A, text);
    if Settled(A, text) {
      SettledIsFixed(A, text);
    } else if Defused(A, text).1 == 0 {
      NothingReplaced(A, text);
    }
  }

  lemma NothingReplaced(A: Alphabet, text: string)
    requires Defused(A, text).1 == 0
    ensures Defused(A, text).0 == text
  {
    DefusedIsThreePasses(A, text);
    SpliceOfNothing(text, Marker(Fence));
    SpliceOfNothing(text, Marker(Citation));
    SpliceOfNothing(text, Marker(PathLine));
  }
}
