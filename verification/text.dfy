/** Characters and strings as the Python side sees them. */
module Text {

  datatype Option<+T> = None | Some(value: T)

  /** `str.isspace`, which is also what `\s` means for a Python string pattern. */
  predicate IsSpace(c: char) {
    || c == ' ' || '\U{9}' <= c <= '\U{D}' || '\U{1C}' <= c <= '\U{1F}'
    || c == '\U{85}' || c == '\U{A0}' || c == '\U{1680}' || '\U{2000}' <= c <= '\U{200A}'
    || c == '\U{2028}' || c == '\U{2029}' || c == '\U{202F}' || c == '\U{205F}' || c == '\U{3000}'
  }

  /** The first position from `i` on that is not a space. */
  function SkipSpaces(s: string, i: nat): (r: nat)
    requires i <= |s|
    ensures i <= r <= |s|
    ensures forall k :: i <= k < r ==> IsSpace(s[k])
    ensures r < |s| ==> !IsSpace(s[r])
    decreases |s| - i
  {
    if i < |s| && IsSpace(s[i]) then SkipSpaces(s, i + 1) else i
  }

  /** The end of `s[lo..hi]` without its trailing spaces. */
  function DropSpaces(s: string, lo: nat, hi: nat): (r: nat)
    requires lo <= hi <= |s|
    ensures lo <= r <= hi
    ensures forall k :: r <= k < hi ==> IsSpace(s[k])
    ensures lo < r ==> !IsSpace(s[r - 1])
    decreases hi
  {
    if lo < hi && IsSpace(s[hi - 1]) then DropSpaces(s, lo, hi - 1) else hi
  }

  /** `str.strip`. */
  function Strip(s: string): (r: string)
    ensures |r| <= |s|
    ensures r != [] ==> !IsSpace(r[0]) && !IsSpace(r[|r| - 1])
  {
    var lo := SkipSpaces(s, 0);
    s[lo..DropSpaces(s, lo, |s|)]
  }

  /** A string strips to nothing exactly when it is blank. */
  lemma StripEmptyIffBlank(s: string)
    ensures Strip(s) == [] <==> forall k :: 0 <= k < |s| ==> IsSpace(s[k])
  {
  }

  // Set and sequence facts, generic so that the elements stay abstract to the prover.

  lemma SubsetSize<T>(a: set<T>, b: set<T>)
    requires a <= b
    ensures |a| <= |b|
  {
    assert b == a + (b - a);
  }

  lemma ConsTail<T>(x: T, rest: seq<T>)
    ensures ([x] + rest)[0] == x && ([x] + rest)[1..] == rest
  {
  }

  lemma TakeSnoc<T>(s: seq<T>, n: nat)
    requires 0 < n <= |s|
    ensures s[..n] == s[..n - 1] + [s[n - 1]]
  {
  }

  lemma SnocInit<T>(init: seq<T>, x: T)
    ensures (init + [x])[..|init|] == init && (init + [x])[|init|] == x
  {
  }

  lemma ConcatAssoc<T>(a: seq<T>, b: seq<T>, c: seq<T>)
    ensures (a + b) + c == a + (b + c)
  {
  }

  /** `[f(s[k]), f(s[k + 1]), ...]` */
  function MapFrom<T, U>(f: T -> U, s: seq<T>, k: nat): seq<U>
    requires k <= |s|
    decreases |s| - k
  {
    if k == |s| then [] else [f(s[k])] + MapFrom(f, s, k + 1)
  }

  lemma {:induction false} MapFromLength<T, U>(f: T -> U, s: seq<T>, k: nat)
    requires k <= |s|
    ensures |MapFrom(f, s, k)| == |s| - k
    decreases |s| - k
  {
    if k < |s| {
      MapFromLength(f, s, k + 1);
    }
  }

  lemma {:induction false} MapFromAt<T, U>(f: T -> U, s: seq<T>, k: nat, i: nat)
    requires k <= i < |s|
    ensures |MapFrom(f, s, k)| == |s| - k && MapFrom(f, s, k)[i - k] == f(s[i])
    decreases i - k
  {
    MapFromLength(f, s, k);
    if k < i {
      MapFromAt(f, s, k + 1, i);
    }
  }
}
