/** The metered answer stream (knowledge_desk/assistant.py:50-201). The generator may be closed
    by its caller at any yield, and the limits, the ledger, retrieval and the provider may each
    fail; all of that is in `Env`. */
module Assistant {
  import opened Text

  type AnswerId = nat

  /** What a provider yields. */
  datatype Event = Token(text: string) | Usage(cost: real)

  datatype Frame =
    | MetaFrame(id: AnswerId)
    | SourcesFrame
    | TokenFrame(text: string)
    | DoneFrame(cost: real)
    | ErrorFrame

  /** One row of both ledgers. */
  datatype Booking = Booking(answer: AnswerId, cost: real, estimated: bool)

  /** Calls that may raise, apart from `finalize_answer`. */
  datatype Site = Limits | Record | MarkBlocked | Retrieve | Stats

  /** `events` is what the provider would yield, after which it ends or, with `providerFails`,
      raises. `closes(n)` says whether the caller closes at the yield of frame `n`, and
      `finalizeBreaks(n)` whether the n-th call of `finalize_answer` raises and rolls back. */
  datatype Env = Env(
    blocked: bool, contexts: nat, events: seq<Event>, providerFails: bool,
    breaks: Site -> bool, closes: nat -> bool, finalizeBreaks: nat -> bool, estimate: seq<string> -> real)

  datatype Exit = Returned | Threw | Closed

  const REFUSAL: seq<string> :=
    ["I", "don't", "have", "anything", "I'm", "allowed", "to", "cite", "for", "that.",
     "Nothing", "in", "the", "documents", "you", "can", "access", "matches", "this", "question."]

  // ---- what is owed for the events taken ---------------------------------------------

  function Usages(events: seq<Event>): nat {
    if events == [] then 0
    else Usages(events[..|events| - 1]) + (if events[|events| - 1].Usage? then 1 else 0)
  }

  function Texts(events: seq<Event>): seq<string> {
    if events == [] then []
    else Texts(events[..|events| - 1]) + (if events[|events| - 1].Token? then [events[|events| - 1].text] else [])
  }

  function UsageBookings(id: AnswerId, events: seq<Event>): seq<Booking> {
    if events == [] then []
    else UsageBookings(id, events[..|events| - 1])
         + BookingOf(id, events[|events| - 1])
  }

  function EventFrames(events: seq<Event>): (r: seq<Frame>)
    ensures |r| == |events|
  {
    if events == [] then []
    else EventFrames(events[..|events| - 1]) + [FrameOf(events[|events| - 1])]
  }

  function FrameOf(e: Event): Frame {
    if e.Token? then TokenFrame(e.text) else DoneFrame(e.cost)
  }

  function BookingOf(id: AnswerId, e: Event): seq<Booking> {
    if e.Usage? then [Booking(id, e.cost, false)] else []
  }

  /** One more event. */
  lemma Snoc(id: AnswerId, events: seq<Event>, e: Event)
    ensures (events + [e])[..|events|] == events
    ensures Usages(events + [e]) == Usages(events) + (if e.Usage? then 1 else 0)
    ensures Texts(events + [e]) == Texts(events) + (if e.Token? then [e.text] else [])
    ensures UsageBookings(id, events + [e]) == UsageBookings(id, events) + BookingOf(id, e)
    ensures EventFrames(events + [e]) == EventFrames(events) + [FrameOf(e)]
  {
    SnocInit(events, e);
  }

  lemma AppendTwice<T>(a: seq<T>, b: seq<T>, c: seq<T>)
    ensures (a + b) + c == a + (b + c)
    ensures a + b + [] == a + b
  {
  }

  /** The last event taken was a usage frame whose booking failed. */
  predicate Lost(env: Env, taken: seq<Event>) {
    taken != [] && taken[|taken| - 1].Usage? && env.finalizeBreaks(Usages(taken) - 1)
  }

  /** The events taken that were dealt with in full. */
  function Counted(env: Env, taken: seq<Event>): seq<Event> {
    if Lost(env, taken) then taken[..|taken| - 1] else taken
  }

  /** What the two ledgers receive for one answer, given the events its stream took. */
  function Booked(env: Env, id: AnswerId, taken: seq<Event>): seq<Booking> {
    UsageBookings(id, Counted(env, taken))
    + (if Usages(Counted(env, taken)) == 0 && Texts(taken) != [] && !env.finalizeBreaks(Usages(taken))
       then [Booking(id, env.estimate(Texts(taken)), true)] else [])
  }

  // ---- what the caller sees ----------------------------------------------------------

  /** How many of the provider's events the loop takes if nobody closes it, given that it has
      taken the first `k`: all of them, or those up to the first whose booking fails. */
  function LoopEnd(env: Env, k: nat): (r: nat)
    requires k <= |env.events|
    ensures k <= r <= |env.events|
    decreases |env.events| - k
  {
    if k == |env.events| then k
    else if Lost(env, env.events[..k + 1]) then k + 1
    else LoopEnd(env, k + 1)
  }

  function LoopTakes(env: Env): seq<Event> {
    env.events[..LoopEnd(env, 0)]
  }

  function LoopExit(env: Env): Exit {
    if Lost(env, LoopTakes(env)) || env.providerFails then Threw else Returned
  }

  /** Frames, events taken and ending of a stream. */
  datatype Outcome = Outcome(frames: seq<Frame>, taken: seq<Event>, exit: Exit)

  function RefusalFrames(words: seq<string>): (r: seq<Frame>)
    ensures |r| == |words| + 1
  {
    seq(|words|, i requires 0 <= i < |words| => TokenFrame(words[i] + " ")) + [DoneFrame(0.0)]
  }

  /** The stream up to its except block, if its caller reads on to the end. */
  function Plan(env: Env, id: AnswerId): Outcome {
    if env.breaks(Limits) then Outcome([], [], Threw)
    else if env.blocked then
      if env.breaks(Record) || env.breaks(MarkBlocked) then Outcome([], [], Threw)
      else Outcome([MetaFrame(id), ErrorFrame], [], Returned)
    else if env.breaks(Retrieve) || env.breaks(Record) then Outcome([], [], Threw)
    else if env.contexts == 0 then Outcome([MetaFrame(id)] + RefusalFrames(REFUSAL), [], Returned)
    else if env.breaks(Stats) then Outcome([MetaFrame(id)], [], Threw)
    else Outcome([MetaFrame(id), SourcesFrame] + EventFrames(Counted(env, LoopTakes(env))), LoopTakes(env),
                 LoopExit(env))
  }

  /** The first frame from `k` on at whose yield the caller closes, or `n`. */
  function FirstClose(env: Env, n: nat, k: nat): (r: nat)
    requires k <= n
    ensures k <= r <= n && (r < n ==> env.closes(r)) && forall j :: k <= j < r ==> !env.closes(j)
    decreases n - k
  {
    if k == n || env.closes(k) then k else FirstClose(env, n, k + 1)
  }

  /** The stream up to its except block, closed where its caller closes it. An event is taken
      before its frame is yielded. */
  function Cut(env: Env, p: Outcome): Outcome {
    var c := FirstClose(env, |p.frames|, 0);
    if c == |p.frames| then p
    else Outcome(p.frames[..c + 1], if 2 <= c < |p.taken| + 2 then p.taken[..c - 1] else [], Closed)
  }

  /** The whole stream: what raises is answered with an error frame. */
  function Shown(env: Env, id: AnswerId): Outcome {
    var o := Cut(env, Plan(env, id));
    if o.exit == Threw then o.(frames := o.frames + [ErrorFrame]) else o
  }

  /** Whether the question gets an answer row. */
  predicate Recorded(env: Env) {
    !env.breaks(Limits) && !env.breaks(Record) && (env.blocked || !env.breaks(Retrieve))
  }

  /** `frames` is `start` and what could be sent of `list` before the caller closed. */
  predicate Sent(env: Env, start: seq<Frame>, list: seq<Frame>, frames: seq<Frame>, closed: bool) {
    && |start| <= |frames| <= |start| + |list| && frames == start + list[..|frames| - |start|]
    && (closed ==> |start| < |frames| && env.closes(|frames| - 1))
    && (!closed ==> |frames| == |start| + |list|)
    && forall j :: |start| <= j < |frames| - (if closed then 1 else 0) ==> !env.closes(j)
  }

  lemma SentMore(env: Env, start: seq<Frame>, list: seq<Frame>, more: seq<Frame>, frames: seq<Frame>, closed: bool)
    requires Sent(env, start, list, start + list, false) && Sent(env, start + list, more, frames, closed)
    ensures Sent(env, start, list + more, frames, closed)
  {
    var n := |frames| - |start| - |list|;
    assert (list + more)[..|list| + n] == list + more[..n];
    ConcatAssoc(start, list, more[..n]);
  }

  lemma SentEnough(env: Env, start: seq<Frame>, list: seq<Frame>, more: seq<Frame>, frames: seq<Frame>)
    requires Sent(env, start, list, frames, true)
    ensures Sent(env, start, list + more, frames, true)
  {
    var n := |frames| - |start|;
    assert (list + more)[..n] == list[..n];
  }

  lemma SentOne(env: Env, start: seq<Frame>, f: Frame)
    ensures Sent(env, start, [f], start + [f], env.closes(|start|))
  {
    assert [f][..1] == [f];
  }

  /** What was sent decides the outcome. */
  lemma SentIsCut(env: Env, p: Outcome, frames: seq<Frame>, closed: bool)
    requires Sent(env, [], p.frames, frames, closed)
    ensures frames == Cut(env, p).frames
    ensures closed <==> FirstClose(env, |p.frames|, 0) < |p.frames|
    ensures closed ==> |frames| == FirstClose(env, |p.frames|, 0) + 1
  {
    var c := FirstClose(env, |p.frames|, 0);
    assert p.frames[..|p.frames|] == p.frames;
    if closed {
      assert c >= |frames| - 1;
    }
  }

  lemma {:induction false} EventFramesPrefix(events: seq<Event>, n: nat, m: nat)
    requires n <= m <= |events|
    ensures EventFrames(events[..m])[..n] == EventFrames(events[..n])
    decreases m
  {
    if m > 0 {
      TakeSnoc(events, m);
      Snoc(0, events[..m - 1], events[m - 1]);
      EventFramesPrefix(events, if n < m then n else m - 1, m - 1);
    }
  }

  /** The loop has not ended with its first `k` events. */
  predicate GoesOn(env: Env, k: nat) {
    k <= |env.events| && LoopEnd(env, 0) == LoopEnd(env, k)
  }

  /** Frames for the first `k` events are the first frames the loop would send in all. */
  lemma SentSoFar(env: Env, k: nat)
    requires GoesOn(env, k) && (k > 0 ==> !Lost(env, env.events[..k]))
    ensures var all := Counted(env, LoopTakes(env));
            k <= |all| && EventFrames(all)[..k] == EventFrames(env.events[..k])
  {
    var e := LoopEnd(env, 0);
    var all := Counted(env, LoopTakes(env));
    if Lost(env, LoopTakes(env)) {
      assert all == env.events[..e - 1];
      assert k != e;
      EventFramesPrefix(env.events, k, e - 1);
    } else {
      EventFramesPrefix(env.events, k, e);
    }
  }

  /** The three ways out of the loop, with `k` events taken. */
  lemma LoopLost(env: Env, start: seq<Frame>, k: nat)
    requires 0 < k <= |env.events| && GoesOn(env, k - 1) && Lost(env, env.events[..k])
    requires forall j :: |start| <= j < |start| + k - 1 ==> !env.closes(j)
    ensures LoopTakes(env) == env.events[..k] && LoopExit(env) == Threw
    ensures Sent(env, start, EventFrames(Counted(env, LoopTakes(env))), start + EventFrames(env.events[..k - 1]), false)
  {
    assert env.events[..k][..k - 1] == env.events[..k - 1];
    var all := EventFrames(env.events[..k - 1]);
    assert all[..k - 1] == all;
  }

  lemma LoopClosed(env: Env, start: seq<Frame>, k: nat)
    requires 0 < k && GoesOn(env, k) && !Lost(env, env.events[..k]) && env.closes(|start| + k - 1)
    requires forall j :: |start| <= j < |start| + k - 1 ==> !env.closes(j)
    ensures env.events[..k] <= LoopTakes(env)
    ensures Sent(env, start, EventFrames(Counted(env, LoopTakes(env))), start + EventFrames(env.events[..k]), true)
  {
    SentSoFar(env, k);
  }

  lemma LoopDone(env: Env, start: seq<Frame>)
    requires GoesOn(env, |env.events|) && !Lost(env, env.events)
    requires forall j :: |start| <= j < |start| + |env.events| ==> !env.closes(j)
    ensures LoopTakes(env) == env.events && LoopExit(env) == if env.providerFails then Threw else Returned
    ensures Sent(env, start, EventFrames(Counted(env, LoopTakes(env))), start + EventFrames(env.events), false)
  {
    assert env.events[..|env.events|] == env.events;
    var all := EventFrames(env.events);
    assert all[..|env.events|] == all;
  }

  /** One event further, unless it was lost. */
  lemma LoopStep(env: Env, k: nat)
    requires k < |env.events| && GoesOn(env, k) && !Lost(env, env.events[..k + 1])
    ensures GoesOn(env, k + 1)
  {
  }

  /** Recorded, and on its way to an answer. */
  predicate Serves(env: Env) {
    !env.breaks(Limits) && !env.blocked && !env.breaks(Retrieve) && !env.breaks(Record)
  }

  lemma PlanWithoutFrames(env: Env, id: AnswerId)
    ensures env.breaks(Limits) || (!env.blocked && (env.breaks(Retrieve) || env.breaks(Record))) ==>
              Cut(env, Plan(env, id)) == Outcome([], [], Threw)
  {
  }

  lemma ClosedAtMeta(env: Env, id: AnswerId, frames: seq<Frame>)
    requires Serves(env) && Sent(env, [], [MetaFrame(id)], frames, true)
    ensures Cut(env, Plan(env, id)) == Outcome(frames, [], Closed)
  {
    var p := Plan(env, id);
    assert p.frames == [MetaFrame(id)] + p.frames[1..];
    SentEnough(env, [], [MetaFrame(id)], p.frames[1..], frames);
    SentIsCut(env, p, frames, true);
  }

  lemma EndedAtMeta(env: Env, id: AnswerId, frames: seq<Frame>)
    requires Serves(env) && env.contexts > 0 && env.breaks(Stats) && Sent(env, [], [MetaFrame(id)], frames, false)
    ensures Cut(env, Plan(env, id)) == Outcome(frames, [], Threw)
  {
    SentIsCut(env, Plan(env, id), frames, false);
  }

  lemma Declined(env: Env, id: AnswerId, frames: seq<Frame>, exit: Exit)
    requires Serves(env) && env.contexts == 0 && !env.closes(0) && (exit == Closed || exit == Returned)
    requires Sent(env, [MetaFrame(id)], RefusalFrames(REFUSAL), frames, exit == Closed)
    ensures Cut(env, Plan(env, id)) == Outcome(frames, [], exit)
  {
    SentOne(env, [], MetaFrame(id));
    SentMore(env, [], [MetaFrame(id)], RefusalFrames(REFUSAL), frames, exit == Closed);
    SentIsCut(env, Plan(env, id), frames, exit == Closed);
  }

  /** Both frames before the first event. */
  predicate Opened(env: Env) {
    Serves(env) && env.contexts > 0 && !env.breaks(Stats) && !env.closes(0)
  }

  lemma TwoSent(env: Env, id: AnswerId, frames: seq<Frame>, closed: bool)
    requires !env.closes(0) && Sent(env, [MetaFrame(id)], [SourcesFrame], frames, closed)
    ensures Sent(env, [], [MetaFrame(id), SourcesFrame], frames, closed)
  {
    SentOne(env, [], MetaFrame(id));
    SentMore(env, [], [MetaFrame(id)], [SourcesFrame], frames, closed);
    assert [MetaFrame(id)] + [SourcesFrame] == [MetaFrame(id), SourcesFrame];
  }

  lemma StreamPlan(env: Env, id: AnswerId)
    requires Serves(env) && env.contexts > 0 && !env.breaks(Stats)
    ensures Plan(env, id) == Outcome([MetaFrame(id), SourcesFrame] + EventFrames(Counted(env, LoopTakes(env))),
                                     LoopTakes(env), LoopExit(env))
  {
  }

  lemma ClosedAtSources(env: Env, id: AnswerId, frames: seq<Frame>)
    requires Opened(env) && Sent(env, [MetaFrame(id)], [SourcesFrame], frames, true)
    ensures Cut(env, Plan(env, id)) == Outcome(frames, [], Closed)
  {
    StreamPlan(env, id);
    TwoSent(env, id, frames, true);
    SentEnough(env, [], [MetaFrame(id), SourcesFrame], EventFrames(Counted(env, LoopTakes(env))), frames);
    SentIsCut(env, Plan(env, id), frames, true);
  }

  /** How far a stream has come: the fields of the generator and the bookings of its ledger. */
  datatype Progress = Progress(
    taken: seq<Event>, streamed: seq<string>, attempts: nat, billed: bool, bookings: seq<Booking>, frames: seq<Frame>)

  /** The ledgers have received what the usage frames among the events taken call for. */
  ghost predicate AccountedFor(env: Env, id: AnswerId, booked: seq<Booking>, p: Progress) {
    && |p.taken| <= |env.events| && p.taken == env.events[..|p.taken|]
    && p.streamed == Texts(p.taken) && p.attempts == Usages(p.taken)
    && (p.billed <==> Usages(Counted(env, p.taken)) > 0)
    && p.bookings == booked + UsageBookings(id, Counted(env, p.taken))
  }

  /** The first `k` events have been taken, booked and shown, and nobody has closed. */
  ghost predicate Relayed(env: Env, id: AnswerId, booked: seq<Booking>, start: seq<Frame>, k: nat, p: Progress) {
    && k <= |env.events| && GoesOn(env, k) && p.taken == env.events[..k] && !Lost(env, p.taken)
    && AccountedFor(env, id, booked, p)
    && p.frames == start + EventFrames(p.taken)
    && forall j :: |start| <= j < |start| + k ==> !env.closes(j)
  }

  /** The loop has ended: what it sent and took is what it had to. */
  ghost predicate RelayEnded(env: Env, id: AnswerId, booked: seq<Booking>, start: seq<Frame>, p: Progress, exit: Exit) {
    && AccountedFor(env, id, booked, p)
    && Sent(env, start, EventFrames(Counted(env, LoopTakes(env))), p.frames, exit == Closed)
    && (exit != Closed ==> exit == LoopExit(env) && p.taken == LoopTakes(env))
    && (exit == Closed ==> |p.taken| == |p.frames| - |start| && p.taken <= LoopTakes(env))
  }

  /** What taking one event does. */
  ghost predicate TookOne(env: Env, id: AnswerId, e: Event, p: Progress, q: Progress) {
    && q.taken == p.taken + [e] && q.streamed == Texts(q.taken) && q.attempts == Usages(q.taken)
    && (q.billed <==> Usages(if Lost(env, q.taken) then p.taken else q.taken) > 0)
    && q.bookings == p.bookings + (if Lost(env, q.taken) then [] else BookingOf(id, e))
    && q.frames == p.frames + (if Lost(env, q.taken) then [] else [FrameOf(e)])
  }

  predicate InStep(p: Progress) {
    p.streamed == Texts(p.taken) && p.attempts == Usages(p.taken) && (p.billed <==> Usages(p.taken) > 0)
  }

  lemma LostIff(env: Env, taken: seq<Event>, e: Event)
    ensures Lost(env, taken + [e]) <==> e.Usage? && env.finalizeBreaks(Usages(taken))
  {
    Snoc(0, taken, e);
  }

  lemma TookLost(env: Env, id: AnswerId, e: Event, p: Progress, q: Progress)
    requires InStep(p) && e.Usage? && env.finalizeBreaks(p.attempts)
    requires q == p.(taken := p.taken + [e], attempts := p.attempts + 1)
    ensures TookOne(env, id, e, p, q) && Lost(env, q.taken)
  {
    Snoc(id, p.taken, e);
    LostIff(env, p.taken, e);
    AppendTwice(p.bookings, [], []);
    AppendTwice(p.frames, [], []);
  }

  lemma TookWhole(env: Env, id: AnswerId, e: Event, p: Progress, q: Progress)
    requires InStep(p) && !(e.Usage? && env.finalizeBreaks(p.attempts))
    requires q.taken == p.taken + [e] && q.frames == p.frames + [FrameOf(e)]
    requires q.streamed == (if e.Token? then p.streamed + [e.text] else p.streamed)
    requires q.attempts == p.attempts + (if e.Usage? then 1 else 0) && q.billed == (p.billed || e.Usage?)
    requires q.bookings == (if e.Usage? then p.bookings + [Booking(id, e.cost, false)] else p.bookings)
    ensures TookOne(env, id, e, p, q) && !Lost(env, q.taken)
  {
    Snoc(id, p.taken, e);
    LostIff(env, p.taken, e);
    AppendTwice(p.bookings, [], []);
  }

  lemma TookAccounts(env: Env, id: AnswerId, booked: seq<Booking>, e: Event, p: Progress, q: Progress)
    requires AccountedFor(env, id, booked, p) && !Lost(env, p.taken) && TookOne(env, id, e, p, q)
    requires |p.taken| < |env.events| && e == env.events[|p.taken|]
    ensures AccountedFor(env, id, booked, q)
  {
    TakeSnoc(env.events, |q.taken|);
    Snoc(id, p.taken, e);
    AppendTwice(booked, UsageBookings(id, p.taken), BookingOf(id, e));
  }

  lemma TookShows(env: Env, id: AnswerId, start: seq<Frame>, e: Event, p: Progress, q: Progress)
    requires p.frames == start + EventFrames(p.taken) && TookOne(env, id, e, p, q)
    ensures q.frames == start + EventFrames(if Lost(env, q.taken) then p.taken else q.taken)
  {
    Snoc(id, p.taken, e);
    AppendTwice(start, EventFrames(p.taken), [FrameOf(e)]);
  }

  /** One event more, and either the loop goes on or it has ended as it had to. */
  lemma TookOneMore(env: Env, id: AnswerId, booked: seq<Booking>, start: seq<Frame>, k: nat, p: Progress, q: Progress)
    requires Relayed(env, id, booked, start, k, p) && k < |env.events| && TookOne(env, id, env.events[k], p, q)
    ensures if Lost(env, q.taken) then RelayEnded(env, id, booked, start, q, Threw)
            else if env.closes(|p.frames|) then RelayEnded(env, id, booked, start, q, Closed)
            else Relayed(env, id, booked, start, k + 1, q)
  {
    TakeSnoc(env.events, k + 1);
    TookAccounts(env, id, booked, env.events[k], p, q);
    TookShows(env, id, start, env.events[k], p, q);
    if Lost(env, q.taken) {
      LoopLost(env, start, k + 1);
    } else {
      LoopStep(env, k);
      if env.closes(|p.frames|) {
        LoopClosed(env, start, k + 1);
      }
    }
  }

  /** Nothing taken is accounted for by nothing booked. */
  lemma AccountedForNothing(env: Env, id: AnswerId, p: Progress)
    requires p.taken == [] && p.streamed == [] && p.attempts == 0 && !p.billed
    ensures AccountedFor(env, id, p.bookings, p)
  {
    AppendTwice(p.bookings, [], []);
  }

  /** Behind its first two frames, how the loop ended is how the stream does. */
  lemma RelayIsCut(env: Env, id: AnswerId, booked: seq<Booking>, start: seq<Frame>, p: Progress, exit: Exit)
    requires Opened(env) && !env.closes(1) && start == [MetaFrame(id), SourcesFrame]
    requires RelayEnded(env, id, booked, start, p, exit)
    ensures Cut(env, Plan(env, id)) == Outcome(p.frames, p.taken, exit)
  {
    StreamPlan(env, id);
    SentOne(env, [MetaFrame(id)], SourcesFrame);
    assert [MetaFrame(id)] + [SourcesFrame] == start;
    TwoSent(env, id, start, false);
    SentMore(env, [], start, EventFrames(Counted(env, LoopTakes(env))), p.frames, exit == Closed);
    SentIsCut(env, Plan(env, id), p.frames, exit == Closed);
  }

  lemma TookAll(env: Env, id: AnswerId, booked: seq<Booking>, start: seq<Frame>, p: Progress)
    requires Relayed(env, id, booked, start, |env.events|, p)
    ensures RelayEnded(env, id, booked, start, p, if env.providerFails then Threw else Returned)
  {
    assert env.events[..|env.events|] == env.events;
    LoopDone(env, start);
  }

  // ---- the stream --------------------------------------------------------------------

  class Ledger {
    var rows: nat
    var blocked: set<AnswerId>
    var bookings: seq<Booking>

    constructor ()
      ensures rows == 0 && blocked == {} && bookings == []
    {
      rows, blocked, bookings := 0, {}, [];
    }

    method RecordAnswer() returns (id: AnswerId)
      modifies this`rows
      ensures id == old(rows) && rows == old(rows) + 1
    {
      id := rows;
      rows := rows + 1;
    }

    method MarkBlocked(id: AnswerId)
      modifies this`blocked
      ensures blocked == old(blocked) + {id}
    {
      blocked := blocked + {id};
    }

    method Finalize(id: AnswerId, cost: real, estimated: bool)
      modifies this`bookings
      ensures bookings == old(bookings) + [Booking(id, cost, estimated)]
    {
      bookings := bookings + [Booking(id, cost, estimated)];
    }
  }

  /** The generator: its local variables are the fields. `taken` and `attempts` are history. */
  class AnswerStream {
    const env: Env
    const ledger: Ledger
    var answerId: Option<AnswerId>
    var streamed: seq<string>
    var billed: bool
    var frames: seq<Frame>
    var attempts: nat
    ghost var taken: seq<Event>

    constructor (env: Env, ledger: Ledger)
      ensures this.env == env && this.ledger == ledger && Untouched()
    {
      this.env, this.ledger := env, ledger;
      answerId, streamed, billed, frames, attempts, taken := None, [], false, [], 0, [];
    }

    ghost predicate Untouched()
      reads this
    {
      answerId.None? && frames == [] && Uncharged()
    }

    /** Nothing has been taken or charged. */
    ghost predicate Uncharged()
      reads this
    {
      streamed == [] && !billed && attempts == 0 && taken == []
    }

    /** `yield frame`; says whether the caller closed there. */
    method Emit(frame: Frame) returns (closed: bool)
      modifies this`frames
      ensures frames == old(frames) + [frame] && closed == env.closes(|old(frames)|)
      ensures Sent(env, old(frames), [frame], frames, closed)
    {
      SentOne(env, frames, frame);
      closed := env.closes(|frames|);
      frames := frames + [frame];
    }

    /** The try block. */
    method Body() returns (exit: Exit)
      requires Untouched()
      modifies this, ledger`rows, ledger`blocked, ledger`bookings
      ensures Outcome(frames, taken, exit) == Cut(env, Plan(env, old(ledger.rows)))
      ensures answerId == (if Recorded(env) then Some(old(ledger.rows)) else None)
      ensures ledger.rows == old(ledger.rows) + (if Recorded(env) then 1 else 0)
      ensures ledger.blocked == old(ledger.blocked)
                                + (if env.blocked && Recorded(env) && !env.breaks(MarkBlocked)
                                   then {old(ledger.rows)} else {})
      ensures AccountedFor(env, old(ledger.rows), old(ledger.bookings), Now())
    {
      PlanWithoutFrames(env, ledger.rows);
      AccountedForNothing(env, ledger.rows, Now());
      if env.breaks(Limits) {
        exit := Threw;
      } else if env.blocked {
        exit := Refuse();
      } else if env.breaks(Retrieve) || env.breaks(Record) {
        exit := Threw;
      } else {
        exit := Serve();
      }
    }

    /** The question goes through: record it, name the answer, and decline or relay. */
    method Serve() returns (exit: Exit)
      requires Untouched() && Serves(env)
      modifies this, ledger`rows, ledger`bookings
      ensures Outcome(frames, taken, exit) == Cut(env, Plan(env, old(ledger.rows)))
      ensures answerId == Some(old(ledger.rows)) && ledger.rows == old(ledger.rows) + 1
      ensures AccountedFor(env, old(ledger.rows), old(ledger.bookings), Now())
    {
      AccountedForNothing(env, ledger.rows, Now());
      var id := ledger.RecordAnswer();
      answerId := Some(id);
      var closed := Emit(MetaFrame(id));
      if closed {
        ClosedAtMeta(env, id, frames);
        return Closed;
      }
      exit := Proceed(id);
    }

    /** Behind the first frame. */
    method Proceed(id: AnswerId) returns (exit: Exit)
      requires Uncharged() && frames == [MetaFrame(id)] && Serves(env) && !env.closes(0)
      modifies this`streamed, this`billed, this`frames, this`attempts, this`taken, ledger`bookings
      ensures Outcome(frames, taken, exit) == Cut(env, Plan(env, id))
      ensures AccountedFor(env, id, old(ledger.bookings), Now())
    {
      AccountedForNothing(env, id, Now());
      if env.contexts == 0 {
        exit := Decline(REFUSAL);
        Declined(env, id, frames, exit);
        return;
      }
      if env.breaks(Stats) {
        SentOne(env, [], MetaFrame(id));
        EndedAtMeta(env, id, frames);
        return Threw;
      }
      var closed := Emit(SourcesFrame);
      if closed {
        ClosedAtSources(env, id, frames);
        return Closed;
      }
      ghost var start := frames;
      assert start == [MetaFrame(id), SourcesFrame];
      exit := Relay(id);
      RelayIsCut(env, id, old(ledger.bookings), start, Now(), exit);
    }

    /** Over a limit: recorded, marked, never sent to a model. */
    method Refuse() returns (exit: Exit)
      requires Untouched() && env.blocked && !env.breaks(Limits)
      modifies this`answerId, this`frames, ledger`rows, ledger`blocked
      ensures Outcome(frames, [], exit) == Cut(env, Plan(env, old(ledger.rows)))
      ensures answerId == (if env.breaks(Record) then None else Some(old(ledger.rows)))
      ensures ledger.rows == old(ledger.rows) + (if env.breaks(Record) then 0 else 1)
      ensures ledger.blocked == old(ledger.blocked)
                                + (if env.breaks(Record) || env.breaks(MarkBlocked) then {} else {old(ledger.rows)})
    {
      ghost var p := Plan(env, ledger.rows);
      if env.breaks(Record) {
        return Threw;
      }
      var id := ledger.RecordAnswer();
      answerId := Some(id);
      if env.breaks(MarkBlocked) {
        return Threw;
      }
      ledger.MarkBlocked(id);
      var closed := Emit(MetaFrame(id));
      if closed {
        SentEnough(env, [], [MetaFrame(id)], [ErrorFrame], frames);
        SentIsCut(env, p, frames, true);
        return Closed;
      }
      closed := Emit(ErrorFrame);
      SentMore(env, [], [MetaFrame(id)], [ErrorFrame], frames, closed);
      assert [MetaFrame(id)] + [ErrorFrame] == p.frames;
      SentIsCut(env, p, frames, closed);
      return if closed then Closed else Returned;
    }

    /** Nothing the caller may see: the refusal text, word by word. */
    method Decline(words: seq<string>) returns (exit: Exit)
      modifies this`frames
      ensures exit == Closed || exit == Returned
      ensures Sent(env, old(frames), RefusalFrames(words), frames, exit == Closed)
    {
      ghost var all := RefusalFrames(words);
      for i := 0 to |words|
        invariant Sent(env, old(frames), all[..i], frames, false)
      {
        ghost var before := frames;
        var closed := Emit(TokenFrame(words[i] + " "));
        OneMore(old(frames), all, i, before, closed);
        if closed {
          assert all[..i + 1] + all[i + 1..] == all;
          SentEnough(env, old(frames), all[..i + 1], all[i + 1..], frames);
          return Closed;
        }
      }
      ghost var before := frames;
      var closed := Emit(DoneFrame(0.0));
      OneMore(old(frames), all, |words|, before, closed);
      assert all[..|words| + 1] == all;
      return if closed then Closed else Returned;
    }

    /** Frame `i` of a list has been sent behind those before it. */
    lemma OneMore(start: seq<Frame>, all: seq<Frame>, i: nat, before: seq<Frame>, closed: bool)
      requires i < |all| && Sent(env, start, all[..i], before, false) && Sent(env, before, [all[i]], frames, closed)
      ensures Sent(env, start, all[..i + 1], frames, closed)
    {
      TakeSnoc(all, i + 1);
      assert all[..i][..i] == all[..i];
      SentMore(env, start, all[..i], [all[i]], frames, closed);
    }

    ghost function Now(): (p: Progress)
      reads this, ledger
      ensures p.frames == frames && p.bookings == ledger.bookings
    {
      Progress(taken, streamed, attempts, billed, ledger.bookings, frames)
    }

    /** The loop over the provider's events. It takes every one of them, unless a booking fails
        or the caller closes first. */
    method Relay(id: AnswerId) returns (exit: Exit)
      requires Uncharged()
      modifies this`streamed, this`billed, this`frames, this`attempts, this`taken, ledger`bookings
      ensures RelayEnded(env, id, old(ledger.bookings), old(frames), Now(), exit)
    {
      var i := 0;
      while i < |env.events|
        invariant i <= |env.events| && Relayed(env, id, old(ledger.bookings), old(frames), i, Now())
      {
        ghost var before := Now();
        var ended := Take(id, env.events[i]);
        TookOneMore(env, id, old(ledger.bookings), old(frames), i, before, Now());
        if ended.Some? {
          return ended.value;
        }
        i := i + 1;
      }
      TookAll(env, id, old(ledger.bookings), old(frames), Now());
      return if env.providerFails then Threw else Returned;
    }

    /** The loop body, for one event. */
    method Take(id: AnswerId, e: Event) returns (ended: Option<Exit>)
      requires InStep(Now())
      modifies this`streamed, this`billed, this`frames, this`attempts, this`taken, ledger`bookings
      ensures TookOne(env, id, e, old(Now()), Now())
      ensures ended == if Lost(env, taken) then Some(Threw)
                        else if env.closes(|old(frames)|) then Some(Closed) else None
    {
      ghost var before := Now();
      taken := taken + [e];
      match e {
        case Token(text) =>
          streamed := streamed + [text];
        case Usage(cost) =>
          attempts := attempts + 1;
          if env.finalizeBreaks(attempts - 1) {
            TookLost(env, id, e, before, Now());
            return Some(Threw);
          }
          ledger.Finalize(id, cost, false);
          billed := true;
      }
      var closed := Emit(FrameOf(e));
      TookWhole(env, id, e, before, Now());
      return if closed then Some(Closed) else None;
    }

    /** The finally block; says whether it raised. */
    method Finish() returns (raised: bool)
      modifies this`attempts, ledger`bookings
      ensures ledger.bookings ==
              old(ledger.bookings)
              + (if answerId.Some? && !billed && streamed != [] && !env.finalizeBreaks(old(attempts))
                 then [Booking(answerId.value, env.estimate(streamed), true)] else [])
      ensures raised <==> answerId.Some? && !billed && streamed != [] && env.finalizeBreaks(old(attempts))
    {
      raised := false;
      if answerId.Some? && !billed && streamed != [] {
        raised := env.finalizeBreaks(attempts);
        if !raised {
          ledger.Finalize(answerId.value, env.estimate(streamed), true);
        }
        attempts := attempts + 1;
      }
    }

    /** The whole generator. What surrounds it decides how it ends, what it shows and what the
        ledgers receive: exactly what the events it took call for. */
    method Run() returns (exit: Exit, raised: bool)
      requires Untouched()
      modifies this, ledger`rows, ledger`blocked, ledger`bookings
      ensures Outcome(frames, taken, exit) == Shown(env, old(ledger.rows))
      ensures ledger.bookings == old(ledger.bookings) + Booked(env, old(ledger.rows), taken)
      ensures ledger.rows == old(ledger.rows) + (if Recorded(env) then 1 else 0)
      ensures ledger.blocked == old(ledger.blocked)
                                + (if env.blocked && Recorded(env) && !env.breaks(MarkBlocked)
                                   then {old(ledger.rows)} else {})
    {
      exit := Body();
      if exit == Threw {
        var closed := Emit(ErrorFrame);
      }
      TakenIsRecorded(env, old(ledger.rows));
      raised := Finish();
    }
  }

  /** Events are only ever taken for a recorded answer. */
  lemma TakenIsRecorded(env: Env, id: AnswerId)
    ensures Cut(env, Plan(env, id)).taken != [] ==> Recorded(env)
  {
  }

  /** The route: one generator, read until it ends or the client goes away. */
  method Ask(env: Env, ledger: Ledger) returns (frames: seq<Frame>)
    modifies ledger
    ensures frames == Shown(env, old(ledger.rows)).frames
    ensures ledger.bookings == old(ledger.bookings) + Booked(env, old(ledger.rows), Shown(env, old(ledger.rows)).taken)
  {
    var stream := new AnswerStream(env, ledger);
    var exit, raised := stream.Run();
    frames := stream.frames;
  }

  // ---- what the bookings amount to ---------------------------------------------------

  ghost predicate LedgerUp(env: Env) {
    forall n: nat :: !env.finalizeBreaks(n)
  }

  lemma {:induction false} BookingsPerUsage(id: AnswerId, events: seq<Event>)
    ensures |UsageBookings(id, events)| == Usages(events)
    ensures forall b :: b in UsageBookings(id, events) ==> b.answer == id && !b.estimated
    decreases |events|
  {
    if events != [] {
      BookingsPerUsage(id, events[..|events| - 1]);
    }
  }

  lemma {:induction false} TokenOrUsage(events: seq<Event>)
    ensures events != [] <==> Usages(events) > 0 || Texts(events) != []
    decreases |events|
  {
    if events != [] {
      TokenOrUsage(events[..|events| - 1]);
    }
  }

  /** While the ledger answers, an answer is booked at all exactly if a token was taken or a
      usage frame arrived, and more than once exactly if more than one usage frame did. */
  lemma BookedIff(env: Env, id: AnswerId, taken: seq<Event>)
    requires LedgerUp(env)
    ensures Booked(env, id, taken) != [] <==> taken != []
    ensures |Booked(env, id, taken)| <= 1 <==> Usages(taken) <= 1
    ensures forall b :: b in Booked(env, id, taken) ==> b.answer == id && (b.estimated <==> Usages(taken) == 0)
  {
    BookingsPerUsage(id, taken);
    TokenOrUsage(taken);
  }

  /** Whatever the ledger does, a provider that sends at most one usage frame has its answer
      booked at most once. */
  lemma BookedAtMostOnce(env: Env, id: AnswerId, taken: seq<Event>)
    requires Usages(taken) <= 1
    ensures |Booked(env, id, taken)| <= 1
  {
    BookingsPerUsage(id, Counted(env, taken));
    if Lost(env, taken) {
      assert Usages(taken) == Usages(taken[..|taken| - 1]) + 1;
    }
  }

  // ---- terminal frames ---------------------------------------------------------------

  function Terminals(frames: seq<Frame>): nat {
    if frames == [] then 0
    else
      var last := frames[|frames| - 1];
      Terminals(frames[..|frames| - 1]) + (if last.DoneFrame? || last.ErrorFrame? then 1 else 0)
  }

  lemma {:induction false} TerminalsConcat(a: seq<Frame>, b: seq<Frame>)
    ensures Terminals(a + b) == Terminals(a) + Terminals(b)
    decreases |b|
  {
    if b == [] {
      assert a + b == a;
    } else {
      var init, last := b[..|b| - 1], b[|b| - 1];
      TerminalsConcat(a, init);
      assert (a + b)[..|a + b| - 1] == a + init;
    }
  }

  lemma {:induction false} TerminalsOfEvents(events: seq<Event>)
    ensures Terminals(EventFrames(events)) == Usages(events)
    decreases |events|
  {
    if events != [] {
      var init, last := events[..|events| - 1], events[|events| - 1];
      TerminalsOfEvents(init);
      SnocInit(EventFrames(init), FrameOf(last));
    }
  }

  lemma TwoFramesFirst(id: AnswerId)
    ensures Terminals([MetaFrame(id), SourcesFrame]) == 0
  {
    assert [MetaFrame(id)][..0] == [];
    assert Terminals([MetaFrame(id)]) == 0;
    assert [MetaFrame(id), SourcesFrame][..1] == [MetaFrame(id)];
  }

  lemma TerminalsOfStream(id: AnswerId, events: seq<Event>, end: seq<Frame>)
    requires end == [] || end == [ErrorFrame]
    ensures Terminals(([MetaFrame(id), SourcesFrame] + EventFrames(events)) + end) == Usages(events) + |end|
  {
    TwoFramesFirst(id);
    TerminalsOfEvents(events);
    TerminalsConcat([MetaFrame(id), SourcesFrame], EventFrames(events));
    TerminalsConcat([MetaFrame(id), SourcesFrame] + EventFrames(events), end);
    assert end != [] ==> end[..0] == [];
  }

  lemma {:induction false} NeverClosed(env: Env, n: nat, k: nat)
    requires k <= n && forall j: nat :: !env.closes(j)
    ensures FirstClose(env, n, k) == n
    decreases n - k
  {
    if k < n {
      NeverClosed(env, n, k + 1);
    }
  }

  /** A stream that gets as far as the provider and is read to its end shows one terminal frame
      for every usage frame booked, and one more if something raised. */
  lemma TerminalFrames(env: Env, id: AnswerId)
    requires Opened(env) && forall j: nat :: !env.closes(j)
    ensures Shown(env, id).exit == LoopExit(env) && Shown(env, id).taken == LoopTakes(env)
    ensures Terminals(Shown(env, id).frames)
            == Usages(Counted(env, LoopTakes(env))) + (if LoopExit(env) == Threw then 1 else 0)
  {
    StreamPlan(env, id);
    NeverClosed(env, |Plan(env, id).frames|, 0);
    var end := if LoopExit(env) == Threw then [ErrorFrame] else [];
    TerminalsOfStream(id, Counted(env, LoopTakes(env)), end);
    AppendTwice([MetaFrame(id), SourcesFrame], EventFrames(Counted(env, LoopTakes(env))), []);
  }

  /** Nothing goes wrong on this side: no call raises, no booking fails, no limit is reached,
      there is something to cite, and the caller reads on. */
  ghost predicate Untroubled(env: Env) {
    && (forall site: Site :: !env.breaks(site)) && (forall n: nat :: !env.closes(n)) && LedgerUp(env)
    && !env.blocked && env.contexts > 0
  }

  lemma {:induction false} LoopRunsOut(env: Env, k: nat)
    requires LedgerUp(env) && k <= |env.events|
    ensures LoopEnd(env, k) == |env.events|
    decreases |env.events| - k
  {
    if k < |env.events| {
      LoopRunsOut(env, k + 1);
    }
  }

  /** Then the provider alone decides. All its events are taken, the stream raises exactly if
      the provider does, and there is exactly one terminal frame if and only if the provider
      sends one usage frame and does not raise, or raises without having sent one. */
  lemma OneTerminalIff(env: Env, id: AnswerId)
    requires Untroubled(env)
    ensures Shown(env, id).taken == env.events
    ensures Shown(env, id).exit == if env.providerFails then Threw else Returned
    ensures Terminals(Shown(env, id).frames) == 1
            <==> (Usages(env.events) == 1 && !env.providerFails) || (Usages(env.events) == 0 && env.providerFails)
  {
    LoopRunsOut(env, 0);
    assert env.events[..|env.events|] == env.events;
    TerminalFrames(env, id);
  }

  /** The Claude provider refuses: it raises behind its usage frame. */
  predicate Refuses(env: Env, cost: real) {
    env.events == [Usage(cost)] && env.providerFails
  }

  lemma OneUsage(id: AnswerId, cost: real)
    ensures Usages([Usage(cost)]) == 1 && UsageBookings(id, [Usage(cost)]) == [Booking(id, cost, false)]
  {
    assert [Usage(cost)][..0] == [];
  }

  /** A refusal is booked once and shows two terminal frames. */
  lemma RefusalShowsTwo(env: Env, id: AnswerId, cost: real)
    requires Untroubled(env) && Refuses(env, cost)
    ensures Terminals(Shown(env, id).frames) == 2
    ensures Booked(env, id, Shown(env, id).taken) == UsageBookings(id, env.events)
  {
    LoopRunsOut(env, 0);
    assert env.events[..|env.events|] == env.events;
    TerminalFrames(env, id);
    OneUsage(id, cost);
    BookedWhole(env, id);
  }

  /** With a usage frame among them, events dealt with in full are booked as they come. */
  lemma BookedWhole(env: Env, id: AnswerId)
    requires LedgerUp(env) && Usages(env.events) > 0
    ensures Booked(env, id, env.events) == UsageBookings(id, env.events)
  {
    AppendTwice(UsageBookings(id, env.events), [], []);
  }

  /** The same of a stream that is really run. */
  method RefusedAsk(env: Env, ledger: Ledger, cost: real) returns (frames: seq<Frame>)
    requires Untroubled(env) && Refuses(env, cost)
    modifies ledger
    ensures Terminals(frames) == 2
    ensures ledger.bookings == old(ledger.bookings) + [Booking(old(ledger.rows), cost, false)]
  {
    RefusalShowsTwo(env, ledger.rows, cost);
    OneUsage(ledger.rows, cost);
    frames := Ask(env, ledger);
  }

  // ---- what is charged, over all that surrounds a stream ------------------------------

  lemma {:induction false} UsagesOfPrefix(events: seq<Event>, n: nat, m: nat)
    requires n <= m <= |events|
    ensures Usages(events[..n]) <= Usages(events[..m])
    decreases m
  {
    if n < m {
      TakeSnoc(events, m);
      Snoc(0, events[..m - 1], events[m - 1]);
      UsagesOfPrefix(events, n, m - 1);
    }
  }

  lemma TakenIsPrefix(env: Env, id: AnswerId)
    ensures var taken := Shown(env, id).taken; |taken| <= |env.events| && taken == env.events[..|taken|]
  {
  }

  /** Which streams take an event: those that get past the limits, retrieval and the first two
      frames, from a provider that has one. */
  lemma TakesSomethingIff(env: Env, id: AnswerId)
    ensures Shown(env, id).taken != [] <==> Opened(env) && !env.closes(1) && env.events != []
  {
    var p := Plan(env, id);
    if Serves(env) && env.contexts > 0 && !env.breaks(Stats) {
      StreamPlan(env, id);
      assert |p.frames| >= 2;
      assert env.events != [] ==> LoopEnd(env, 0) > 0;
      var c := FirstClose(env, |p.frames|, 0);
      assert c <= 1 <==> env.closes(0) || env.closes(1);
      assert Cut(env, p).taken != [] <==> c > 1 && p.taken != [];
    } else {
      assert p.taken == [];
    }
  }

  /** While the ledger answers, a question is charged exactly if its stream reaches a provider
      that sends something, whatever ends it after that; with at most one usage frame it is
      charged once. A blocked, refused or failed question before that costs nothing. */
  lemma ChargedIff(env: Env, id: AnswerId)
    requires LedgerUp(env)
    ensures Booked(env, id, Shown(env, id).taken) != [] <==> Opened(env) && !env.closes(1) && env.events != []
    ensures Usages(env.events) <= 1 ==> |Booked(env, id, Shown(env, id).taken)| <= 1
  {
    var taken := Shown(env, id).taken;
    TakesSomethingIff(env, id);
    BookedIff(env, id, taken);
    TakenIsPrefix(env, id);
    UsagesOfPrefix(env.events, |taken|, |env.events|);
    assert env.events[..|env.events|] == env.events;
  }
}
