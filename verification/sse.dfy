/** Reassembling server-sent events from reads of any size (frontend/src/api.ts:127-140).
    This is the line-feed, single-data-line subset of section 9.2.5 of the WHATWG HTML
    Standard. */
module SseReader {
  import opened Text

  /** The position of the first blank-line delimiter at or after `i`, or the length. */
  function Delimiter(s: string, i: nat): (r: nat)
    requires i <= |s|
    ensures i <= r <= |s| && (r < |s| ==> r + 1 < |s| && s[r] == '\n' && s[r + 1] == '\n')
    ensures forall k :: i <= k && k + 1 < |s| && k < r ==> s[k] != '\n' || s[k + 1] != '\n'
    decreases |s| - i
  {
    if i + 1 < |s| && s[i] == '\n' && s[i + 1] == '\n' then i
    else if i < |s| then Delimiter(s, i + 1)
    else i
  }

  function Delimiters(s: string): nat -> nat {
    (i: nat) => if i <= |s| then Delimiter(s, i) else |s|
  }

  /** `next` reports a whole delimiter at or after `i`, inside a text of length `n`. */
  predicate Found(next: nat -> nat, i: nat, n: nat) {
    i <= next(i) && next(i) + 2 <= n
  }

  /** The parts of `s` that a delimiter ends, from `i` on. */
  function FramesFrom(s: string, next: nat -> nat, i: nat): seq<string>
    requires i <= |s|
    decreases |s| - i
  {
    if !Found(next, i, |s|) then [] else [s[i..next(i)]] + FramesFrom(s, next, next(i) + 2)
  }

  /** Where the part behind the last delimiter begins, from `i` on, in a text of length `n`. */
  function RestFrom(next: nat -> nat, n: nat, i: nat): (r: nat)
    requires i <= n
    ensures i <= r <= n
    decreases n - i
  {
    if !Found(next, i, n) then i else RestFrom(next, n, next(i) + 2)
  }

  function FramesOf(s: string, next: nat -> nat): seq<string> {
    FramesFrom(s, next, 0)
  }

  function RestOf(next: nat -> nat, n: nat): (r: nat)
    ensures r <= n
  {
    RestFrom(next, n, 0)
  }

  /** All but the last part of `s.split("\n\n")`. */
  function Frames(s: string): seq<string> {
    FramesOf(s, Delimiters(s))
  }

  function RestStart(s: string): (r: nat)
    ensures r <= |s|
  {
    RestOf(Delimiters(s), |s|)
  }

  /** The last part, which the reader keeps in its buffer. */
  function Rest(s: string): string {
    s[RestStart(s)..]
  }

  const PREFIX := "data: "

  /** The end of the line of `s` that starts at `i`. */
  function LineEnd(s: string, i: nat): (r: nat)
    requires i <= |s|
    ensures i <= r <= |s| && (r < |s| ==> s[r] == '\n')
    ensures forall k :: i <= k < r ==> s[k] != '\n'
    decreases |s| - i
  {
    if i < |s| && s[i] != '\n' then LineEnd(s, i + 1) else i
  }

  /** The payload of the first line of the frame that starts with `data: `, from `i` on. */
  function DataLine(frame: string, i: nat): Option<string>
    requires i <= |frame|
    decreases |frame| - i
  {
    var e := LineEnd(frame, i);
    if i + |PREFIX| <= e && frame[i..i + |PREFIX|] == PREFIX then Some(frame[i + |PREFIX|..e])
    else if e < |frame| then DataLine(frame, e + 1)
    else None
  }

  /** What one frame comes to: no data line, an event, or a payload that does not parse, which
      throws out of the loop. */
  datatype FrameResult<+E> = Silent | Event(event: E) | Throws

  function Read<E>(parse: string -> Option<E>): string -> FrameResult<E> {
    (frame: string) =>
      var line := DataLine(frame, 0);
      if line.None? then Silent
      else if parse(line.value).None? then Throws
      else Event(parse(line.value).value)
  }

  /** The events handed on, in order, and whether an exception ended the stream. */
  datatype Delivery<+E> = Delivery(events: seq<E>, failed: bool)

  /** Deliver the first `n` frames, stopping at the first that throws. */
  function Deliver<E>(read: string -> FrameResult<E>, frames: seq<string>, n: nat): Delivery<E>
    requires n <= |frames|
  {
    if n == 0 then Delivery([], false)
    else
      var before := Deliver(read, frames, n - 1);
      if before.failed then before
      else match read(frames[n - 1])
        case Silent => before
        case Event(e) => Delivery(before.events + [e], false)
        case Throws => Delivery(before.events, true)
  }

  /** What parsing a whole text at once delivers. */
  function DeliverAll<E>(read: string -> FrameResult<E>, frames: seq<string>): Delivery<E> {
    Deliver(read, frames, |frames|)
  }

  /** The text that the first `n` reads spell. */
  function Joined(pieces: seq<string>, n: nat): string
    requires n <= |pieces|
  {
    if n == 0 then "" else Joined(pieces, n - 1) + pieces[n - 1]
  }

  /** A delimiter found in a prefix is the first one in the longer text too. */
  lemma {:induction false} DelimiterExtends(a: string, b: string, i: nat)
    requires i <= |a| && Delimiter(a, i) < |a|
    ensures Delimiter(a + b, i) == Delimiter(a, i)
    decreases |a| - i
  {
    if !(i + 1 < |a| && a[i] == '\n' && a[i + 1] == '\n') {
      DelimiterExtends(a, b, i + 1);
    }
  }

  /** `s` and `s'` show the same characters and report the same delimiters up to `n`. */
  ghost predicate SameStart(s: string, next: nat -> nat, s': string, next': nat -> nat) {
    && |s| <= |s'|
    && (forall a, b :: 0 <= a <= b <= |s| ==> s'[a..b] == s[a..b])
    && (forall i: nat {:trigger next(i)} :: i <= |s| && Found(next, i, |s|) ==> next'(i) == next(i))
  }

  /** More text adds frames behind those already complete, and the scan can go on from where
      the unfinished part began. */
  lemma {:induction false} FramesExtend(s: string, next: nat -> nat, s': string, next': nat -> nat, i: nat)
    requires i <= |s| && SameStart(s, next, s', next')
    ensures FramesFrom(s', next', i) == FramesFrom(s, next, i) + FramesFrom(s', next', RestFrom(next, |s|, i))
    ensures RestFrom(next', |s'|, i) == RestFrom(next', |s'|, RestFrom(next, |s|, i))
    decreases |s| - i
  {
    if Found(next, i, |s|) {
      FramesExtend(s, next, s', next', next(i) + 2);
      ConcatAssoc([s[i..next(i)]], FramesFrom(s, next, next(i) + 2), FramesFrom(s', next', RestFrom(next, |s|, i)));
    }
  }

  /** `t` is `s` from `p` on, delimiters included. */
  ghost predicate IsTail(s: string, next: nat -> nat, p: nat, t: string, next': nat -> nat) {
    && |s| == p + |t|
    && (forall a, b :: 0 <= a <= b <= |t| ==> s[p + a..p + b] == t[a..b])
    && (forall i: nat {:trigger next'(i)} :: i <= |t| ==> next(p + i) == p + next'(i))
  }

  /** Splitting a tail is splitting the whole from there on. */
  lemma {:induction false} FramesOfTail(s: string, next: nat -> nat, p: nat, t: string, next': nat -> nat, i: nat)
    requires i <= |t| && IsTail(s, next, p, t, next')
    ensures FramesFrom(s, next, p + i) == FramesFrom(t, next', i)
    ensures RestFrom(next, |s|, p + i) == p + RestFrom(next', |t|, i)
    decreases |t| - i
  {
    assert next(p + i) == p + next'(i);
    if Found(next', i, |t|) {
      FramesOfTail(s, next, p, t, next', next'(i) + 2);
    }
  }

  lemma {:induction false} DelimiterMoves(s: string, t: string, p: nat, i: nat)
    requires |s| == p + |t| && s[p..] == t && i <= |t|
    ensures Delimiter(s, p + i) == p + Delimiter(t, i)
    decreases |t| - i
  {
    assert i < |t| ==> s[p + i] == t[i];
    assert i + 1 < |t| ==> s[p + i + 1] == t[i + 1];
    if i < |t| && !(i + 1 < |t| && t[i] == '\n' && t[i + 1] == '\n') {
      DelimiterMoves(s, t, p, i + 1);
    }
  }

  lemma PrefixSlices(a: string, b: string)
    ensures forall x, y :: 0 <= x <= y <= |a| ==> (a + b)[x..y] == a[x..y]
  {
  }

  lemma ExtensionSame(a: string, b: string)
    ensures SameStart(a, Delimiters(a), a + b, Delimiters(a + b))
  {
    forall i: nat | i <= |a| && Found(Delimiters(a), i, |a|) ensures Delimiters(a + b)(i) == Delimiters(a)(i) {
      DelimiterExtends(a, b, i);
    }
    PrefixSlices(a, b);
  }

  lemma TailSlices(s: string, p: nat)
    requires p <= |s|
    ensures forall x, y :: 0 <= x <= y <= |s| - p ==> s[p + x..p + y] == s[p..][x..y]
  {
  }

  lemma TailSame(s: string, p: nat)
    requires p <= |s|
    ensures IsTail(s, Delimiters(s), p, s[p..], Delimiters(s[p..]))
  {
    var t := s[p..];
    forall i: nat | i <= |t| ensures Delimiters(s)(p + i) == p + Delimiters(t)(i) {
      DelimiterMoves(s, t, p, i);
    }
    TailSlices(s, p);
  }

  /** A text that starts as `a` does and goes on as `t` from where the rest of `a` begins. */
  lemma SplitAtRest(a: string, na: nat -> nat, s: string, ns: nat -> nat, p: nat, t: string, nt: nat -> nat)
    requires SameStart(a, na, s, ns) && IsTail(s, ns, p, t, nt) && p == RestOf(na, |a|)
    ensures FramesOf(s, ns) == FramesOf(a, na) + FramesOf(t, nt)
    ensures RestOf(ns, |s|) == p + RestOf(nt, |t|)
  {
    FramesExtend(a, na, s, ns, 0);
    FramesOfTail(s, ns, p, t, nt, 0);
  }

  lemma RestBehind(a: string, b: string)
    ensures (a + b)[RestStart(a)..] == Rest(a) + b
  {
  }

  lemma SliceOfTail(s: string, p: nat, k: nat)
    requires p + k <= |s|
    ensures s[p + k..] == s[p..][k..]
  {
  }

  lemma SplitAdvances(a: string, b: string)
    ensures Frames(a + b) == Frames(a) + Frames(Rest(a) + b)
    ensures RestStart(a + b) == RestStart(a) + RestStart(Rest(a) + b)
  {
    var p, s, t := RestStart(a), a + b, Rest(a) + b;
    RestBehind(a, b);
    ExtensionSame(a, b);
    TailSame(s, p);
    SplitAtRest(a, Delimiters(a), s, Delimiters(s), p, t, Delimiters(t));
  }

  /** One read: what was buffered, with the new text behind it, splits into exactly the
      frames that the new text completes, and leaves the right rest. */
  lemma ReadAdvances(a: string, b: string)
    ensures Frames(a + b) == Frames(a) + Frames(Rest(a) + b)
    ensures Rest(a + b) == Rest(Rest(a) + b)
  {
    SplitAdvances(a, b);
    RestBehind(a, b);
    SliceOfTail(a + b, RestStart(a), RestStart(Rest(a) + b));
  }

  lemma {:induction false} DeliverPrefix<E>(read: string -> FrameResult<E>, a: seq<string>, b: seq<string>, n: nat)
    requires n <= |a|
    ensures Deliver(read, a + b, n) == Deliver(read, a, n)
  {
    if n > 0 {
      DeliverPrefix(read, a, b, n - 1);
    }
  }

  /** Frames behind others deliver theirs after them, unless an exception came first. */
  lemma {:induction false} DeliverMore<E>(read: string -> FrameResult<E>, a: seq<string>, b: seq<string>, n: nat)
    requires n <= |b|
    ensures var first, next := DeliverAll(read, a), Deliver(read, b, n);
            && Deliver(read, a + b, |a| + n).failed == (first.failed || next.failed)
            && Deliver(read, a + b, |a| + n).events == if first.failed then first.events else first.events + next.events
  {
    if n == 0 {
      DeliverPrefix(read, a, b, |a|);
    } else {
      DeliverMore(read, a, b, n - 1);
    }
  }

  /** Hand on the frames of one read; true if a payload threw. */
  method DeliverFrames<E>(read: string -> FrameResult<E>, frames: seq<string>, seen: seq<E>)
    returns (events: seq<E>, failed: bool)
    ensures events == seen + DeliverAll(read, frames).events && failed == DeliverAll(read, frames).failed
  {
    events, failed := seen, false;
    for k := 0 to |frames|
      invariant !Deliver(read, frames, k).failed
      invariant events == seen + Deliver(read, frames, k).events
    {
      var r := read(frames[k]);
      match r {
        case Silent =>
        case Event(e) =>
          events := events + [e];
        case Throws =>
          FailureStays(read, frames, k + 1, |frames|);
          return events, true;
      }
    }
  }

  lemma {:induction false} FailureStays<E>(read: string -> FrameResult<E>, frames: seq<string>, k: nat, n: nat)
    requires k <= n <= |frames| && Deliver(read, frames, k).failed
    ensures Deliver(read, frames, n) == Deliver(read, frames, k)
    decreases n - k
  {
    if k < n {
      FailureStays(read, frames, k, n - 1);
    }
  }

  /** What the splitter keeps back of `a`, with `b` behind it, splits like the whole. */
  predicate SplitsAcross(frames: string -> seq<string>, rest: string -> string, a: string, b: string) {
    frames(a + b) == frames(a) + frames(rest(a) + b) && rest(a + b) == rest(rest(a) + b)
  }

  /** The law a splitter must obey to work on a stream. */
  ghost predicate SplitsStreams(frames: string -> seq<string>, rest: string -> string) {
    frames("") == [] && rest("") == "" && forall a, b :: SplitsAcross(frames, rest, a, b)
  }

  /** Splitting at blank lines and keeping the last part obeys it. */
  lemma BlankLinesSplitStreams()
    ensures SplitsStreams(Frames, Rest)
  {
    RestOfNothing();
    forall a, b ensures SplitsAcross(Frames, Rest, a, b) {
      ReadAdvances(a, b);
    }
  }

  lemma RestOfNothing()
    ensures Frames("") == [] && Rest("") == ""
  {
  }

  /** The read loop. Whatever way the text was cut into reads, it delivers what parsing the
      whole text at once delivers. */
  method AskStream<E>(parse: string -> Option<E>, pieces: seq<string>) returns (events: seq<E>, failed: bool)
    ensures var whole := DeliverAll(Read(parse), Frames(Joined(pieces, |pieces|)));
            events == whole.events && failed == whole.failed
  {
    BlankLinesSplitStreams();
    events, failed := ReadLoop(Read(parse), Frames, Rest, pieces);
  }

  method ReadLoop<E>(read: string -> FrameResult<E>, frames: string -> seq<string>, rest: string -> string,
                     pieces: seq<string>)
    returns (events: seq<E>, failed: bool)
    requires SplitsStreams(frames, rest)
    ensures var whole := DeliverAll(read, frames(Joined(pieces, |pieces|)));
            events == whole.events && failed == whole.failed
  {
    events, failed := [], false;
    var buffer := "";
    for n := 0 to |pieces|
      invariant buffer == rest(Joined(pieces, n))
      invariant !DeliverAll(read, frames(Joined(pieces, n))).failed
      invariant events == DeliverAll(read, frames(Joined(pieces, n))).events
    {
      ReadStep(read, frames, rest, pieces, n);
      buffer := buffer + pieces[n];
      events, failed := DeliverFrames(read, frames(buffer), events);
      buffer := rest(buffer);
      if failed {
        LaterReadsChangeNothing(read, frames, rest, pieces, n + 1, |pieces|);
        return;
      }
    }
  }

  /** One read adds the frames it completes to those of the text so far. */
  lemma ReadStep<E>(read: string -> FrameResult<E>, frames: string -> seq<string>, rest: string -> string,
                    pieces: seq<string>, n: nat)
    requires n < |pieces| && SplitsStreams(frames, rest)
    ensures var a := Joined(pieces, n);
            var first, more := DeliverAll(read, frames(a)), DeliverAll(read, frames(rest(a) + pieces[n]));
            var both := DeliverAll(read, frames(Joined(pieces, n + 1)));
            && both.failed == (first.failed || more.failed)
            && both.events == (if first.failed then first.events else first.events + more.events)
            && rest(Joined(pieces, n + 1)) == rest(rest(a) + pieces[n])
  {
    var a := Joined(pieces, n);
    var more := frames(rest(a) + pieces[n]);
    assert SplitsAcross(frames, rest, a, pieces[n]);
    DeliverMore(read, frames(a), more, |more|);
  }

  /** What the text of the first `n` reads delivers. */
  function AfterReads<E>(read: string -> FrameResult<E>, frames: string -> seq<string>, pieces: seq<string>,
                         n: nat): Delivery<E>
    requires n <= |pieces|
  {
    DeliverAll(read, frames(Joined(pieces, n)))
  }

  lemma FailedReadStep<E>(read: string -> FrameResult<E>, frames: string -> seq<string>, rest: string -> string,
                          pieces: seq<string>, n: nat)
    requires n < |pieces| && SplitsStreams(frames, rest) && AfterReads(read, frames, pieces, n).failed
    ensures AfterReads(read, frames, pieces, n + 1).failed
    ensures AfterReads(read, frames, pieces, n + 1).events == AfterReads(read, frames, pieces, n).events
  {
    ReadStep(read, frames, rest, pieces, n);
  }

  /** Once a payload has thrown, nothing that would have followed is delivered. */
  lemma {:induction false} LaterReadsChangeNothing<E>(
      read: string -> FrameResult<E>, frames: string -> seq<string>, rest: string -> string, pieces: seq<string>,
      k: nat, n: nat)
    requires k <= n <= |pieces| && SplitsStreams(frames, rest) && AfterReads(read, frames, pieces, k).failed
    ensures AfterReads(read, frames, pieces, n).failed
    ensures AfterReads(read, frames, pieces, n).events == AfterReads(read, frames, pieces, k).events
    decreases n - k
  {
    if k < n {
      LaterReadsChangeNothing(read, frames, rest, pieces, k, n - 1);
      FailedReadStep(read, frames, rest, pieces, n - 1);
    }
  }

  /** `f"data: {payload}\n\n"` for each of the first `n` payloads. */
  function Printed(payloads: seq<string>, n: nat): string
    requires n <= |payloads|
  {
    if n == 0 then "" else Printed(payloads, n - 1) + (PREFIX + payloads[n - 1] + "\n\n")
  }

  predicate OneLine(s: string) {
    forall k :: 0 <= k < |s| ==> s[k] != '\n'
  }

  lemma {:induction false} DelimiterAt(s: string, i: nat, d: nat)
    requires i <= d && d + 1 < |s| && s[d] == '\n' && s[d + 1] == '\n'
    requires forall k :: i <= k < d ==> s[k] != '\n'
    ensures Delimiter(s, i) == d
    decreases d - i
  {
    if i < d {
      DelimiterAt(s, i + 1, d);
    }
  }

  lemma {:induction false} LineEndAt(s: string, i: nat, d: nat)
    requires i <= d <= |s| && (d < |s| ==> s[d] == '\n') && forall k :: i <= k < d ==> s[k] != '\n'
    ensures LineEnd(s, i) == d
    decreases d - i
  {
    if i < d {
      LineEndAt(s, i + 1, d);
    }
  }

  /** One printed payload is one complete frame, and the frame's data line is the payload. */
  lemma OnePrinted(payload: string)
    requires OneLine(payload)
    ensures Frames(PREFIX + payload + "\n\n") == [PREFIX + payload] && Rest(PREFIX + payload + "\n\n") == ""
    ensures DataLine(PREFIX + payload, 0) == Some(payload)
  {
    var frame := PREFIX + payload;
    var s := frame + "\n\n";
    forall k | 0 <= k < |frame| ensures frame[k] != '\n' {
    }
    DelimiterAt(s, 0, |frame|);
    LineEndAt(frame, 0, |frame|);
    assert s[0..|frame|] == frame;
    assert frame[0..|PREFIX|] == PREFIX && frame[|PREFIX|..|frame|] == payload;
    assert Delimiter(s, |s|) == |s|;
    FrameThenNothing(s, Delimiters(s));
  }

  lemma FrameThenNothing(s: string, next: nat -> nat)
    requires next(0) + 2 == |s| && next(|s|) == |s|
    ensures FramesFrom(s, next, 0) == [s[0..next(0)]] && RestFrom(next, |s|, 0) == |s|
  {
  }

  predicate OneFrame(frames: string -> seq<string>, rest: string -> string, payload: string) {
    frames(PREFIX + payload + "\n\n") == [PREFIX + payload] && rest(PREFIX + payload + "\n\n") == ""
  }

  /** What the server prints comes back payload by payload, in order. */
  lemma {:induction false} PrintedFrames(frames: string -> seq<string>, rest: string -> string, payloads: seq<string>,
                                         n: nat)
    requires n <= |payloads| && SplitsStreams(frames, rest)
    requires forall i :: 0 <= i < n ==> OneFrame(frames, rest, payloads[i])
    ensures |frames(Printed(payloads, n))| == n && rest(Printed(payloads, n)) == ""
    ensures forall i :: 0 <= i < n ==> frames(Printed(payloads, n))[i] == PREFIX + payloads[i]
  {
    if n > 0 {
      PrintedFrames(frames, rest, payloads, n - 1);
      var a, b := Printed(payloads, n - 1), PREFIX + payloads[n - 1] + "\n\n";
      assert rest(a) + b == b;
      assert SplitsAcross(frames, rest, a, b);
    }
  }

  lemma {:induction false} DeliverEvents<E>(read: string -> FrameResult<E>, frames: seq<string>, n: nat)
    requires n <= |frames| && forall i :: 0 <= i < n ==> read(frames[i]).Event?
    ensures var d := Deliver(read, frames, n);
            !d.failed && |d.events| == n && forall i :: 0 <= i < n ==> d.events[i] == read(frames[i]).event
  {
    if n > 0 {
      DeliverEvents(read, frames, n - 1);
    }
  }

  lemma PrintedFrame<E>(parse: string -> Option<E>, payload: string)
    requires OneLine(payload) && parse(payload).Some?
    ensures OneFrame(Frames, Rest, payload)
    ensures Read(parse)(PREFIX + payload) == Event(parse(payload).value)
  {
    OnePrinted(payload);
  }

  lemma PrintedEvents<E>(read: string -> FrameResult<E>, frames: string -> seq<string>, rest: string -> string,
                         payloads: seq<string>)
    requires SplitsStreams(frames, rest)
    requires forall i :: 0 <= i < |payloads| ==>
               OneFrame(frames, rest, payloads[i]) && read(PREFIX + payloads[i]).Event?
    ensures var d := DeliverAll(read, frames(Printed(payloads, |payloads|)));
            && !d.failed && |d.events| == |payloads|
            && forall i :: 0 <= i < |payloads| ==> d.events[i] == read(PREFIX + payloads[i]).event
  {
    PrintedFrames(frames, rest, payloads, |payloads|);
    DeliverEvents(read, frames(Printed(payloads, |payloads|)), |payloads|);
  }

  /** Printing newline-free payloads, cutting the text into reads in any way, and reading it
      gives the parsed payloads back unchanged and in order. */
  lemma RoundTrip<E>(parse: string -> Option<E>, payloads: seq<string>, pieces: seq<string>)
    requires forall i :: 0 <= i < |payloads| ==> OneLine(payloads[i]) && parse(payloads[i]).Some?
    requires Joined(pieces, |pieces|) == Printed(payloads, |payloads|)
    ensures var d := DeliverAll(Read(parse), Frames(Joined(pieces, |pieces|)));
            && !d.failed && |d.events| == |payloads|
            && forall i :: 0 <= i < |payloads| ==> d.events[i] == parse(payloads[i]).value
  {
    BlankLinesSplitStreams();
    var read := Read(parse);
    forall i | 0 <= i < |payloads|
      ensures OneFrame(Frames, Rest, payloads[i]) && read(PREFIX + payloads[i]) == Event(parse(payloads[i]).value)
    {
      PrintedFrame(parse, payloads[i]);
    }
    PrintedEvents(read, Frames, Rest, payloads);
  }
}
