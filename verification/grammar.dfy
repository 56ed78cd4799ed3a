/** The prompt's own grammar and its defusal (knowledge_desk/providers.py:103-166).

    Each of the three patterns is given twice: `MatchesWith` reads the regular expression
    off as cut points, one per piece of the expression, and `MatchAt` is the deterministic
    matcher. The two are proved to agree on where a match can start. */
module Grammar {
  import opened Text
  import opened Normalize

  datatype Pattern = Fence | Citation | PathLine

  /** The character classes the expressions repeat. */
  datatype Class = Lt | Gt | NotGt | Space | Sep | Digit

  predicate In(A: Alphabet, cl: Class, c: char) {
    match cl
    case Lt => c == '<'
    case Gt => c == '>'
    case NotGt => c != '>'
    case Space => A.space(c)
    case Sep => c == '_' || A.space(c) || c == '-'
    case Digit => A.digit(c)
  }

  predicate IsLetter(c: char) { 'A' <= c <= 'Z' }

  predicate IsPunctuation(c: char) { c in {'<', '>', '/', '_', '-', '[', ']', ':'} }

  /** What the matching relies on: letters, digits, spaces and the marker punctuation are
      kept apart, and plain ASCII is visible and folds to itself. */
  ghost predicate Sane(A: Alphabet) {
    && (forall c :: IsLetter(A.upper(c)) ==> !A.space(c) && !IsPunctuation(c) && !A.digit(c))
    && (forall c :: A.space(c) ==> !IsPunctuation(c))
    && (forall c :: A.digit(c) ==> !A.space(c) && !IsPunctuation(c))
    && (forall c :: IsLetter(c) ==> A.upper(c) == c)
    && (forall c :: 'a' <= c <= 'z' ==> IsLetter(A.upper(c)))
    && (forall c :: ' ' <= c <= '~' || c == '\n' ==> !A.invisible(c) && A.lookalike(c) == c)
  }

  function AsciiUpper(c: char): char {
    if 'a' <= c <= 'z' then c - 'a' + 'A' else c
  }

  /** Plain ASCII, with nothing invisible and no lookalikes, is one such alphabet. */
  lemma AsciiIsSane()
    ensures Sane(Alphabet(c => false, c => c, IsSpace, c => '0' <= c <= '9', AsciiUpper))
  {
    forall c | IsLetter(AsciiUpper(c)) ensures !IsSpace(c) && !IsPunctuation(c) && !('0' <= c <= '9') {
      assert 'A' <= c <= 'Z' || 'a' <= c <= 'z';
    }
  }

  /** `f[i..j]` is made of characters of one class. */
  predicate RunOf(A: Alphabet, f: string, cl: Class, i: nat, j: nat) {
    j <= |f| && forall x :: i <= x < j ==> In(A, cl, f[x])
  }

  /** The literal `w` stands at `i`, case ignored. */
  predicate Word(A: Alphabet, f: string, i: nat, w: string) {
    i + |w| <= |f| && forall x :: 0 <= x < |w| ==> A.upper(f[i + x]) == w[x]
  }

  const END_WORD := "END"
  const UNTRUSTED_WORD := "UNTRUSTED"
  const DOCUMENT_WORD := "DOCUMENT"
  const PATH_WORD := "PATH"

  /** `(?m)^` */
  predicate LineStart(f: string, i: nat) {
    i <= |f| && (i == 0 || f[i - 1] == '\n')
  }

  /** Where the pieces of one match begin and end. */
  datatype Cuts =
    | FenceCuts(a: nat, b: nat, c: nat, d: nat, e: nat, g: nat, h: nat, end: nat)
    | CitationCuts(a: nat, b: nat, c: nat, end: nat)
    | PathCuts(a: nat, b: nat, end: nat)

  // The opening run, spaces, an optional slash, spaces: from `i` to `d`.
  predicate FenceOpen(A: Alphabet, f: string, i: nat, a: nat, b: nat, c: nat, d: nat) {
    && i < a <= b <= c <= d
    && RunOf(A, f, Lt, i, a) && RunOf(A, f, Space, a, b)
    && (c == b || (c == b + 1 && b < |f| && f[b] == '/'))
    && RunOf(A, f, Space, c, d)
  }

  // The optional END, UNTRUSTED and DOCUMENT, with separators after the first two:
  // from `d` to `g + 8`.
  predicate FenceWords(A: Alphabet, f: string, d: nat, e: nat, g: nat) {
    && d <= e && e + 9 <= g && g + 8 <= |f|
    && (e == d || (d + 3 <= e && Word(A, f, d, END_WORD) && RunOf(A, f, Sep, d + 3, e)))
    && Word(A, f, e, UNTRUSTED_WORD) && RunOf(A, f, Sep, e + 9, g) && Word(A, f, g, DOCUMENT_WORD)
  }

  predicate FencePrefix(A: Alphabet, f: string, i: nat, q: Cuts)
    requires q.FenceCuts?
  {
    FenceOpen(A, f, i, q.a, q.b, q.c, q.d) && FenceWords(A, f, q.d, q.e, q.g)
  }

  /** The expressions of `_GRAMMAR`, piece by piece, at `i`. */
  predicate MatchesWith(A: Alphabet, p: Pattern, f: string, i: nat, q: Cuts) {
    match p
    case Fence =>
      // ...[^>]*>+
      && q.FenceCuts? && FencePrefix(A, f, i, q)
      && q.g + 8 <= q.h < q.end && RunOf(A, f, NotGt, q.g + 8, q.h) && RunOf(A, f, Gt, q.h, q.end)
    case Citation =>
      // \[\s*\d{1,3}\s*\]
      && q.CitationCuts? && i < q.a <= q.b <= q.c < q.end == q.c + 1 && q.end <= |f|
      && f[i] == '[' && i + 1 <= q.a && RunOf(A, f, Space, i + 1, q.a)
      && 1 <= q.b - q.a <= 3 && RunOf(A, f, Digit, q.a, q.b)
      && RunOf(A, f, Space, q.b, q.c) && f[q.c] == ']'
    case PathLine =>
      // (?m)^\s*path\s*:
      && q.PathCuts? && i <= q.a && q.a + 4 <= q.b < q.end == q.b + 1 && q.end <= |f|
      && LineStart(f, i) && RunOf(A, f, Space, i, q.a)
      && Word(A, f, q.a, PATH_WORD) && RunOf(A, f, Space, q.a + 4, q.b) && f[q.b] == ':'
  }

  /** Pattern `p` matches `f` at `i`. */
  ghost predicate MatchesAt(A: Alphabet, p: Pattern, f: string, i: nat) {
    exists q :: MatchesWith(A, p, f, i, q)
  }

  /** Pattern `p` matches somewhere in `f`. */
  ghost predicate Occurs(A: Alphabet, p: Pattern, f: string) {
    exists i: nat, q :: MatchesWith(A, p, f, i, q)
  }

  // ---- the matcher ------------------------------------------------------------------

  /** The end of the longest run of `cl` at `i`. */
  function RunEnd(A: Alphabet, f: string, cl: Class, i: nat): (r: nat)
    requires i <= |f|
    ensures i <= r <= |f| && RunOf(A, f, cl, i, r)
    ensures r < |f| ==> !In(A, cl, f[r])
    decreases |f| - i
  {
    if i < |f| && In(A, cl, f[i]) then RunEnd(A, f, cl, i + 1) else i
  }

  /** After `<+`, already ended at `a`: spaces, an optional slash, spaces. */
  function AfterSlash(A: Alphabet, f: string, a: nat): (d: nat)
    requires a <= |f|
    ensures a <= d <= |f|
  {
    var b := RunEnd(A, f, Space, a);
    RunEnd(A, f, Space, if b < |f| && f[b] == '/' then b + 1 else b)
  }

  /** After the optional END part at `d`. */
  function AfterEnd(A: Alphabet, f: string, d: nat): (e: nat)
    requires d <= |f|
    ensures d <= e <= |f|
  {
    if Word(A, f, d, END_WORD) then RunEnd(A, f, Sep, d + 3) else d
  }

  /** The rest of the expression, from UNTRUSTED at `e` on. */
  function FenceTail(A: Alphabet, f: string, e: nat): Option<nat>
    requires e <= |f|
  {
    if !Word(A, f, e, UNTRUSTED_WORD) then None
    else
      var g := RunEnd(A, f, Sep, e + 9);
      if !Word(A, f, g, DOCUMENT_WORD) then None
      else
        var h := RunEnd(A, f, NotGt, g + 8);
        var end := RunEnd(A, f, Gt, h);
        if end == h then None else Some(end)
  }

  function MatchFence(A: Alphabet, f: string, i: nat): Option<nat>
    requires i <= |f|
  {
    var a := RunEnd(A, f, Lt, i);
    if a == i then None else FenceTail(A, f, AfterEnd(A, f, AfterSlash(A, f, a)))
  }

  function MatchCitation(A: Alphabet, f: string, i: nat): Option<nat>
    requires i <= |f|
  {
    if i == |f| || f[i] != '[' then None
    else
      var a := RunEnd(A, f, Space, i + 1);
      var b := RunEnd(A, f, Digit, a);
      var c := RunEnd(A, f, Space, b);
      if 1 <= b - a <= 3 && c < |f| && f[c] == ']' then Some(c + 1) else None
  }

  function MatchPathLine(A: Alphabet, f: string, i: nat): Option<nat>
    requires i <= |f|
  {
    if !LineStart(f, i) then None
    else
      var a := RunEnd(A, f, Space, i);
      if !Word(A, f, a, PATH_WORD) then None
      else
        var b := RunEnd(A, f, Space, a + 4);
        if b < |f| && f[b] == ':' then Some(b + 1) else None
  }

  /** The end of the match of `p` at `i`, if there is one. */
  function MatchAt(A: Alphabet, p: Pattern, f: string, i: nat): Option<nat>
    requires i <= |f|
  {
    match p
    case Fence => MatchFence(A, f, i)
    case Citation => MatchCitation(A, f, i)
    case PathLine => MatchPathLine(A, f, i)
  }

  lemma {:induction false} RunEndIs(A: Alphabet, f: string, cl: Class, i: nat, k: nat)
    requires i <= k <= |f| && RunOf(A, f, cl, i, k) && (k < |f| ==> !In(A, cl, f[k]))
    ensures RunEnd(A, f, cl, i) == k
    decreases k - i
  {
    if i < k {
      RunEndIs(A, f, cl, i + 1, k);
    }
  }

  lemma {:induction false} RunEndIsLongest(A: Alphabet, f: string, cl: Class, i: nat, k: nat)
    requires i <= k <= |f| && RunOf(A, f, cl, i, k)
    ensures k <= RunEnd(A, f, cl, i)
    decreases k - i
  {
    if i < k {
      RunEndIsLongest(A, f, cl, i + 1, k);
    }
  }

  lemma WordStart(A: Alphabet, f: string, i: nat, w: string)
    requires Sane(A) && Word(A, f, i, w) && w != [] && IsLetter(w[0])
    ensures i < |f| && A.upper(f[i]) == w[0]
    ensures !A.space(f[i]) && !IsPunctuation(f[i]) && !A.digit(f[i])
  {
    assert A.upper(f[i + 0]) == w[0];
  }

  lemma NotWord(A: Alphabet, f: string, i: nat, w: string)
    requires w != [] && i < |f| && A.upper(f[i]) != w[0]
    ensures !Word(A, f, i, w)
  {
    assert f[i + 0] == f[i];
  }

  /** The cut after the opening run, the spaces and the slash is where the matcher lands. */
  lemma FenceHead(A: Alphabet, f: string, i: nat, q: Cuts)
    requires Sane(A) && q.FenceCuts? && FencePrefix(A, f, i, q)
    requires q.d < |f| && f[q.d] != '<' && f[q.d] != '/' && !A.space(f[q.d])
    ensures RunEnd(A, f, Lt, i) == q.a && AfterSlash(A, f, q.a) == q.d
  {
    RunEndIs(A, f, Lt, i, q.a);
    if q.c == q.b {
      RunEndIs(A, f, Space, q.a, q.d);
      RunEndIs(A, f, Space, q.d, q.d);
    } else {
      RunEndIs(A, f, Space, q.a, q.b);
      RunEndIs(A, f, Space, q.c, q.d);
    }
  }

  /** The optional END part ends where the matcher says. */
  lemma FenceEndWord(A: Alphabet, f: string, i: nat, q: Cuts)
    requires Sane(A) && q.FenceCuts? && FencePrefix(A, f, i, q)
    ensures q.d < |f| && f[q.d] != '<' && f[q.d] != '/' && !A.space(f[q.d])
    ensures q.e == AfterEnd(A, f, q.d)
  {
    WordStart(A, f, q.e, UNTRUSTED_WORD);
    if q.e == q.d {
      NotWord(A, f, q.d, END_WORD);
    } else {
      WordStart(A, f, q.d, END_WORD);
      RunEndIs(A, f, Sep, q.d + 3, q.e);
    }
  }

  lemma FenceTailComplete(A: Alphabet, f: string, i: nat, q: Cuts)
    requires Sane(A) && MatchesWith(A, Fence, f, i, q)
    ensures FenceTail(A, f, q.e).Some? && q.end <= FenceTail(A, f, q.e).value
  {
    WordStart(A, f, q.g, DOCUMENT_WORD);
    RunEndIs(A, f, Sep, q.e + 9, q.g);
    assert In(A, Gt, f[q.h]);
    RunEndIs(A, f, NotGt, q.g + 8, q.h);
    RunEndIsLongest(A, f, Gt, q.h, q.end);
  }

  /** Whatever cut points the expression allows, the matcher finds a match there. */
  lemma FenceComplete(A: Alphabet, f: string, i: nat, q: Cuts)
    requires Sane(A) && MatchesWith(A, Fence, f, i, q)
    ensures i <= |f| && MatchFence(A, f, i).Some? && q.end <= MatchFence(A, f, i).value
  {
    FenceEndWord(A, f, i, q);
    FenceHead(A, f, i, q);
    FenceTailComplete(A, f, i, q);
  }

  lemma CitationComplete(A: Alphabet, f: string, i: nat, q: Cuts)
    requires Sane(A) && MatchesWith(A, Citation, f, i, q)
    ensures i <= |f| && MatchCitation(A, f, i) == Some(q.end)
  {
    assert In(A, Digit, f[q.a]);
    RunEndIs(A, f, Space, i + 1, q.a);
    assert IsPunctuation(f[q.c]) && !A.space(f[q.c]);
    assert q.b < q.c ==> In(A, Space, f[q.b]);
    RunEndIs(A, f, Digit, q.a, q.b);
    RunEndIs(A, f, Space, q.b, q.c);
  }

  lemma PathComplete(A: Alphabet, f: string, i: nat, q: Cuts)
    requires Sane(A) && MatchesWith(A, PathLine, f, i, q)
    ensures i <= |f| && MatchPathLine(A, f, i) == Some(q.end)
  {
    WordStart(A, f, q.a, PATH_WORD);
    RunEndIs(A, f, Space, i, q.a);
    assert !A.space(f[q.b]);
    RunEndIs(A, f, Space, q.a + 4, q.b);
  }

  /** Wherever the expression allows a match the matcher reports one, and the longest. */
  lemma MatcherComplete(A: Alphabet, p: Pattern, f: string, i: nat, q: Cuts)
    requires Sane(A) && MatchesWith(A, p, f, i, q)
    ensures i <= |f| && MatchAt(A, p, f, i).Some? && q.end <= MatchAt(A, p, f, i).value
  {
    match p
    case Fence => FenceComplete(A, f, i, q);
    case Citation => CitationComplete(A, f, i, q);
    case PathLine => PathComplete(A, f, i, q);
  }

  lemma FenceHeadSound(A: Alphabet, f: string, a: nat) returns (b: nat, c: nat)
    requires a <= |f|
    ensures a <= b <= c <= AfterSlash(A, f, a) && RunOf(A, f, Space, a, b)
    ensures c == b || (c == b + 1 && f[b] == '/')
    ensures RunOf(A, f, Space, c, AfterSlash(A, f, a))
  {
    b := RunEnd(A, f, Space, a);
    c := if b < |f| && f[b] == '/' then b + 1 else b;
  }

  lemma FenceSound(A: Alphabet, f: string, i: nat) returns (q: Cuts)
    requires i <= |f| && MatchFence(A, f, i).Some?
    ensures MatchesWith(A, Fence, f, i, q) && q.end == MatchFence(A, f, i).value && q.end <= |f|
  {
    var a := RunEnd(A, f, Lt, i);
    var b, c := FenceHeadSound(A, f, a);
    var d := AfterSlash(A, f, a);
    var e := AfterEnd(A, f, d);
    var g := RunEnd(A, f, Sep, e + 9);
    var h := RunEnd(A, f, NotGt, g + 8);
    q := FenceCuts(a, b, c, d, e, g, h, RunEnd(A, f, Gt, h));
    assert FencePrefix(A, f, i, q);
  }

  /** Every match the matcher reports is one the expression allows. */
  lemma MatcherSound(A: Alphabet, p: Pattern, f: string, i: nat) returns (q: Cuts)
    requires i <= |f| && MatchAt(A, p, f, i).Some?
    ensures MatchesWith(A, p, f, i, q) && q.end == MatchAt(A, p, f, i).value
    ensures i < q.end <= |f|
  {
    match p
    case Fence =>
      q := FenceSound(A, f, i);
    case Citation =>
      var a := RunEnd(A, f, Space, i + 1);
      var b := RunEnd(A, f, Digit, a);
      var c := RunEnd(A, f, Space, b);
      q := CitationCuts(a, b, c, c + 1);
    case PathLine =>
      var a := RunEnd(A, f, Space, i);
      var b := RunEnd(A, f, Space, a + 4);
      q := PathCuts(a, b, b + 1);
  }
}
