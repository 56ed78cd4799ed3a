/** The two ledgers under many streams at once: answers per org and spend per day
    (knowledge_desk/assistant.py:35-47, knowledge_desk/tenancy.py:481-544,
    migrations/0013_platform_spend.sql). Costs are reals, and the ends of streams, the turn of
    the day and deletions may come in any order. */
module Ledgers {
  import opened Text
  import opened Sums
  import opened Chains

  type AnswerId = nat
  type StreamId = nat
  type Day = nat

  /** An answer's row goes with its org, and with the account of the user who asked. */
  datatype Answer = Answer(org: nat, user: nat, created: real, cost: real, blocked: bool)

  /** How far a stream has got: each limit is read in a transaction of its own, and then an answer
      is recorded. */
  datatype Stage = SpendRead | QuestionsRead | Cleared | Recorded(answer: AnswerId)

  /** A stream from its first limit check on. */
  datatype Flight = Flight(org: nat, user: nat, stage: Stage)

  datatype Settings = Settings(
    dailyBudget: real, monthlyCap: nat, platformBudget: real,
    maxInFlight: nat,   // the most streams between their first limit check and their end
    maxOfOrg: nat,      // the most of one org
    maxCost: real)      // the most one answer costs

  /** `booked` is history: every answer ever recorded, as it would stand had nothing been deleted. */
  datatype World = World(
    now: real, today: Day, monthStart: real, answers: map<AnswerId, Answer>, nextId: AnswerId,
    platform: map<Day, real>, inFlight: map<StreamId, Flight>, booked: map<AnswerId, Answer>)

  datatype Step =
    | ReadSpend(stream: StreamId, org: nat, user: nat)
    | ReadQuestions(stream: StreamId)
    | ReadPlatform(stream: StreamId)
    | Record(stream: StreamId)
    | Finalize(stream: StreamId, cost: real)
    | Leave(stream: StreamId)
    | RecordBlocked(org: nat, user: nat)
    | DeleteOrg(org: nat)
    | RemoveMember(user: nat)
    | Tick(hours: real)
    | Midnight(newMonth: bool)

  // ---- what a question is measured against -------------------------------------------

  function SpentOn(w: World, day: Day): real {
    if day in w.platform then w.platform[day] else 0.0
  }

  predicate InWindow(a: Answer, org: nat, now: real) {
    a.org == org && a.created > now - 24.0
  }

  function WindowCosts(answers: map<AnswerId, Answer>, org: nat, now: real): nat -> real {
    (id: nat) => if id in answers && InWindow(answers[id], org, now) then answers[id].cost else 0.0
  }

  /** `spend_last_24h` */
  function OrgSpend(w: World, org: nat): real {
    Sum(WindowCosts(w.answers, org, w.now), w.nextId)
  }

  function AskedIn(answers: map<AnswerId, Answer>, org: nat, since: real): set<AnswerId> {
    set id | id in answers && answers[id].org == org && answers[id].created >= since
  }

  /** `questions_this_month` counts these, blocked ones among them. */
  function Asked(w: World, org: nat): set<AnswerId> {
    AskedIn(w.answers, org, w.monthStart)
  }

  predicate StageIs(w: World, stream: StreamId, stage: Stage) {
    stream in w.inFlight && w.inFlight[stream].stage == stage
  }

  function FlightsOf(w: World, org: nat): set<StreamId> {
    set s | s in w.inFlight && w.inFlight[s].org == org
  }

  // ---- steps -------------------------------------------------------------------------

  predicate Enabled(c: Settings, w: World, s: Step) {
    match s
    case ReadSpend(stream, org, _) =>
      && stream !in w.inFlight && |w.inFlight| < c.maxInFlight && |FlightsOf(w, org)| < c.maxOfOrg
      && OrgSpend(w, org) < c.dailyBudget
    case ReadQuestions(stream) =>
      StageIs(w, stream, SpendRead) && |Asked(w, w.inFlight[stream].org)| < c.monthlyCap
    case ReadPlatform(stream) => StageIs(w, stream, QuestionsRead) && SpentOn(w, w.today) < c.platformBudget
    case Record(stream) => StageIs(w, stream, Cleared)
    case Finalize(stream, cost) =>
      stream in w.inFlight && w.inFlight[stream].stage.Recorded? && 0.0 <= cost <= c.maxCost
    case Leave(stream) => stream in w.inFlight
    case RecordBlocked(_, _) => true
    case DeleteOrg(_) => true
    case RemoveMember(_) => true
    case Tick(hours) => hours >= 0.0
    case Midnight(_) => true
  }

  /** One transaction: the answer's row, if it is still there, is set, and the day is added to. */
  function Finalized(w: World, id: AnswerId, cost: real): World {
    w.(answers := if id in w.answers then w.answers[id := w.answers[id].(cost := cost)] else w.answers,
       platform := w.platform[w.today := SpentOn(w, w.today) + cost],
       booked := if id in w.booked then w.booked[id := w.booked[id].(cost := w.booked[id].cost + cost)] else w.booked)
  }

  function WithAnswer(w: World, org: nat, user: nat, blocked: bool): World {
    var a := Answer(org, user, w.now, 0.0, blocked);
    w.(answers := w.answers[w.nextId := a], nextId := w.nextId + 1, booked := w.booked[w.nextId := a])
  }

  predicate IsDeletion(s: Step) { s.DeleteOrg? || s.RemoveMember? }

  /** Which answers a deletion takes with it. */
  predicate Goes(a: Answer, s: Step)
    requires IsDeletion(s)
  {
    if s.DeleteOrg? then a.org == s.org else a.user == s.user
  }

  function Without(w: World, s: Step): World
    requires IsDeletion(s)
  {
    w.(answers := map id | id in w.answers && !Goes(w.answers[id], s) :: w.answers[id])
  }

  function Moved(w: World, stream: StreamId, stage: Stage): World
    requires stream in w.inFlight
  {
    w.(inFlight := w.inFlight[stream := w.inFlight[stream].(stage := stage)])
  }

  /** The effect of a step. A stream that is over a limit leaves; one that finalises its
      answer is then done with it. */
  function After(c: Settings, w: World, s: Step): World
    requires Enabled(c, w, s)
  {
    match s
    case ReadSpend(stream, org, user) => w.(inFlight := w.inFlight[stream := Flight(org, user, SpendRead)])
    case ReadQuestions(stream) => Moved(w, stream, QuestionsRead)
    case ReadPlatform(stream) => Moved(w, stream, Cleared)
    case Record(stream) =>
      Moved(WithAnswer(w, w.inFlight[stream].org, w.inFlight[stream].user, false), stream, Recorded(w.nextId))
    case Finalize(stream, cost) =>
      Finalized(w, w.inFlight[stream].stage.answer, cost).(inFlight := w.inFlight - {stream})
    case Leave(stream) => w.(inFlight := w.inFlight - {stream})
    case RecordBlocked(org, user) => WithAnswer(w, org, user, true)
    case DeleteOrg(_) => Without(w, s)
    case RemoveMember(_) => Without(w, s)
    case Tick(hours) => w.(now := w.now + hours)
    case Midnight(newMonth) => w.(today := w.today + 1, monthStart := if newMonth then w.now else w.monthStart)
  }

  function Start(): World {
    World(0.0, 0, 0.0, map[], 0, map[], map[], map[])
  }

  // ---- sums --------------------------------------------------------------------------

  function Or0(m: map<nat, real>): nat -> real {
    (k: nat) => if k in m then m[k] else 0.0
  }

  function Costs(answers: map<AnswerId, Answer>): nat -> real {
    (id: nat) => if id in answers then answers[id].cost else 0.0
  }

  /** Platform spend summed over all days so far. */
  function PlatformTotal(w: World): real {
    Sum(Or0(w.platform), w.today + 1)
  }

  /** Everything ever booked, answers deleted since included. */
  function BookedTotal(w: World): real {
    Sum(Costs(w.booked), w.nextId)
  }

  /** What the rows still there say was spent. */
  function LiveTotal(w: World): real {
    Sum(Costs(w.answers), w.nextId)
  }

  // ---- the invariants ----------------------------------------------------------------

  /** Rows and history are in step: a row is what was recorded and booked for its answer, and the
      answer of a stream in flight is its org's and has not been booked. */
  ghost predicate BooksOk(w: World) {
    && (forall id: AnswerId :: id in w.booked <==> id < w.nextId)
    && (forall id :: id in w.booked ==> w.booked[id].cost >= 0.0)
    && (forall id :: id in w.answers ==> id < w.nextId && w.booked[id] == w.answers[id])
    && FlightsOk(w)
    && (forall day :: day in w.platform ==> day <= w.today) && w.monthStart <= w.now
  }

  predicate SameAnswer(f: Flight, g: Flight) {
    f.stage.Recorded? && f.stage == g.stage
  }

  ghost predicate FlightsOk(w: World) {
    && (forall s :: s in w.inFlight && w.inFlight[s].stage.Recorded? ==>
          var id := w.inFlight[s].stage.answer;
          id in w.booked && w.booked[id].cost == 0.0 && w.booked[id].org == w.inFlight[s].org)
    && (forall s, t :: s in w.inFlight && t in w.inFlight && SameAnswer(w.inFlight[s], w.inFlight[t]) ==> s == t)
  }

  /** What has been spent on any day, and can still be spent today, stays under the ceiling. */
  ghost predicate SpendOk(c: Settings, w: World) {
    && |w.inFlight| <= c.maxInFlight
    && (forall day: Day :: SpentOn(w, day) < Ceiling(c))
    && SpentOn(w, w.today) + Times(|Spending(w)|, c.maxCost) < Ceiling(c)
  }

  /** The streams that have passed all limits. */
  function Spending(w: World): set<StreamId> {
    set s | s in w.inFlight && (w.inFlight[s].stage.Cleared? || w.inFlight[s].stage.Recorded?)
  }

  function Ceiling(c: Settings): real {
    c.platformBudget + Times(c.maxInFlight, c.maxCost)
  }

  /** `n * x`, by addition. */
  function Times(n: nat, x: real): real {
    if n == 0 then 0.0 else Times(n - 1, x) + x
  }

  lemma {:induction false} TimesIs(n: nat, x: real)
    ensures Times(n, x) == n as real * x
  {
    if n > 0 {
      TimesIs(n - 1, x);
    }
  }

  lemma {:induction false} TimesGrows(n: nat, m: nat, x: real)
    requires x >= 0.0 && n <= m
    ensures 0.0 <= Times(n, x) <= Times(m, x)
  {
    if n < m {
      TimesGrows(n, m - 1, x);
    } else if n > 0 {
      TimesGrows(n - 1, n - 1, x);
    }
  }

  ghost predicate SettingsOk(c: Settings) {
    c.platformBudget > 0.0 && c.maxCost >= 0.0
  }

  ghost predicate Inv(c: Settings, w: World) {
    BooksOk(w) && Conserved(w) && SpendOk(c, w)
  }

  // ---- conservation ------------------------------------------------------------------

  lemma SpentMore(w: World, id: AnswerId, cost: real)
    requires BooksOk(w)
    ensures PlatformTotal(Finalized(w, id, cost)) == PlatformTotal(w) + cost
  {
    SumOneChanged(Or0(w.platform), Or0(Finalized(w, id, cost).platform), w.today + 1, w.today);
  }

  lemma BookedMore(w: World, id: AnswerId, cost: real)
    requires BooksOk(w) && id < w.nextId
    ensures BookedTotal(Finalized(w, id, cost)) == BookedTotal(w) + cost
  {
    SumOneChanged(Costs(w.booked), Costs(Finalized(w, id, cost).booked), w.nextId, id);
  }

  lemma CostsExtend(rows: map<AnswerId, Answer>, n: nat, a: Answer)
    requires a.cost == 0.0 && forall id :: id in rows ==> id < n
    ensures Sum(Costs(rows[n := a]), n + 1) == Sum(Costs(rows), n)
  {
    SumExtends(Costs(rows), Costs(rows[n := a]), n);
  }

  lemma BookedNone(w: World, org: nat, user: nat, blocked: bool)
    requires forall id :: id in w.booked ==> id < w.nextId
    ensures BookedTotal(WithAnswer(w, org, user, blocked)) == BookedTotal(w)
  {
    CostsExtend(w.booked, w.nextId, Answer(org, user, w.now, 0.0, blocked));
  }

  lemma RecordedConserves(w: World, org: nat, user: nat, blocked: bool)
    requires BooksOk(w) && Conserved(w)
    ensures Conserved(WithAnswer(w, org, user, blocked))
  {
    BookedNone(w, org, user, blocked);
  }

  lemma NextDay(c: Settings, w: World, newMonth: bool)
    requires BooksOk(w)
    ensures PlatformTotal(After(c, w, Midnight(newMonth))) == PlatformTotal(w)
    ensures BookedTotal(After(c, w, Midnight(newMonth))) == BookedTotal(w)
  {
    assert Or0(w.platform)(w.today + 1) == 0.0;
  }

  predicate Conserved(w: World) {
    PlatformTotal(w) == BookedTotal(w)
  }

  lemma SameBooks(w: World, w': World)
    requires w'.platform == w.platform && w'.booked == w.booked && w'.today == w.today && w'.nextId == w.nextId
    ensures Conserved(w) <==> Conserved(w')
  {
  }

  lemma FinalizedConserves(w: World, id: AnswerId, cost: real)
    requires BooksOk(w) && Conserved(w) && id < w.nextId
    ensures Conserved(Finalized(w, id, cost))
  {
    SpentMore(w, id, cost);
    BookedMore(w, id, cost);
  }

  lemma StepConserves(c: Settings, w: World, s: Step)
    requires BooksOk(w) && Conserved(w) && Enabled(c, w, s)
    ensures Conserved(After(c, w, s))
  {
    match s
    case Finalize(stream, cost) =>
      var id := w.inFlight[stream].stage.answer;
      FinalizedConserves(w, id, cost);
      SameBooks(Finalized(w, id, cost), After(c, w, s));
    case Record(stream) =>
      var f := w.inFlight[stream];
      RecordedConserves(w, f.org, f.user, false);
      SameBooks(WithAnswer(w, f.org, f.user, false), After(c, w, s));
    case RecordBlocked(org, user) => RecordedConserves(w, org, user, true);
    case Midnight(newMonth) => NextDay(c, w, newMonth);
    case _ => SameBooks(w, After(c, w, s));
  }

  lemma FinalizeKeepsBooks(c: Settings, w: World, stream: StreamId, cost: real)
    requires BooksOk(w) && Enabled(c, w, Finalize(stream, cost))
    ensures BooksOk(After(c, w, Finalize(stream, cost)))
  {
    var id := w.inFlight[stream].stage.answer;
    forall s | s in w.inFlight && s != stream && w.inFlight[s].stage.Recorded?
      ensures w.inFlight[s].stage.answer != id
    {
      assert !SameAnswer(w.inFlight[s], w.inFlight[stream]);
    }
  }

  /** A fresh row at no cost. */
  lemma RecordedKeepsBooks(w: World, org: nat, user: nat, blocked: bool)
    requires BooksOk(w)
    ensures BooksOk(WithAnswer(w, org, user, blocked))
  {
  }

  /** A stream takes an answer that is nobody else's and has not been charged. */
  lemma TakenKeepsBooks(w: World, stream: StreamId, id: AnswerId)
    requires BooksOk(w) && stream in w.inFlight
    requires id in w.booked && w.booked[id].cost == 0.0 && w.booked[id].org == w.inFlight[stream].org
    requires forall s :: s in w.inFlight ==> w.inFlight[s].stage != Recorded(id)
    ensures BooksOk(Moved(w, stream, Recorded(id)))
  {
  }

  lemma RecordKeepsBooks(c: Settings, w: World, stream: StreamId)
    requires BooksOk(w) && Enabled(c, w, Record(stream))
    ensures BooksOk(After(c, w, Record(stream)))
  {
    var f := w.inFlight[stream];
    RecordedKeepsBooks(w, f.org, f.user, false);
    TakenKeepsBooks(WithAnswer(w, f.org, f.user, false), stream, w.nextId);
  }

  lemma MovedKeepsBooks(w: World, stream: StreamId, stage: Stage)
    requires BooksOk(w) && stream in w.inFlight && !stage.Recorded?
    ensures BooksOk(Moved(w, stream, stage))
  {
  }

  lemma BeginKeepsBooks(w: World, stream: StreamId, org: nat, user: nat)
    requires BooksOk(w)
    ensures BooksOk(w.(inFlight := w.inFlight[stream := Flight(org, user, SpendRead)]))
  {
  }

  lemma LeaveKeepsBooks(w: World, stream: StreamId)
    requires BooksOk(w)
    ensures BooksOk(w.(inFlight := w.inFlight - {stream}))
  {
  }

  lemma OtherKeepsBooks(c: Settings, w: World, s: Step)
    requires BooksOk(w) && Enabled(c, w, s) && (IsDeletion(s) || s.Tick? || s.Midnight?)
    ensures BooksOk(After(c, w, s))
  {
  }

  lemma StepKeepsBooks(c: Settings, w: World, s: Step)
    requires BooksOk(w) && Enabled(c, w, s)
    ensures BooksOk(After(c, w, s))
  {
    match s
    case ReadSpend(stream, org, user) => BeginKeepsBooks(w, stream, org, user);
    case ReadQuestions(stream) => MovedKeepsBooks(w, stream, QuestionsRead);
    case ReadPlatform(stream) => MovedKeepsBooks(w, stream, Cleared);
    case Leave(stream) => LeaveKeepsBooks(w, stream);
    case Finalize(stream, cost) => FinalizeKeepsBooks(c, w, stream, cost);
    case Record(stream) => RecordKeepsBooks(c, w, stream);
    case RecordBlocked(org, user) => RecordedKeepsBooks(w, org, user, true);
    case _ => OtherKeepsBooks(c, w, s);
  }

  // ---- the ceiling -------------------------------------------------------------------

  lemma Larger<K, V>(m: map<K, V>, k: K, v: V)
    ensures |m[k := v]| == if k in m then |m| else |m| + 1
  {
    assert m[k := v].Keys == m.Keys + {k};
  }

  lemma Smaller<K, V>(m: map<K, V>, k: K)
    requires k in m
    ensures |m - {k}| == |m| - 1
  {
    assert (m - {k}).Keys == m.Keys - {k};
  }

  lemma SpendingAtMost(w: World)
    ensures |Spending(w)| <= |w.inFlight|
  {
    SubsetSize(Spending(w), w.inFlight.Keys);
  }

  lemma BeginKeepsSpend(c: Settings, w: World, stream: StreamId, org: nat, user: nat)
    requires SpendOk(c, w) && stream !in w.inFlight && |w.inFlight| < c.maxInFlight
    ensures SpendOk(c, w.(inFlight := w.inFlight[stream := Flight(org, user, SpendRead)]))
  {
    var w' := w.(inFlight := w.inFlight[stream := Flight(org, user, SpendRead)]);
    Larger(w.inFlight, stream, Flight(org, user, SpendRead));
    assert Spending(w') == Spending(w);
    SameSpend(w, w');
  }

  /** One stream more may spend, because the day was under the budget. */
  lemma ClearKeepsSpend(c: Settings, w: World, stream: StreamId)
    requires SettingsOk(c) && SpendOk(c, w) && stream in w.inFlight && SpentOn(w, w.today) < c.platformBudget
    ensures SpendOk(c, Moved(w, stream, Cleared))
  {
    var w' := Moved(w, stream, Cleared);
    Larger(w.inFlight, stream, w'.inFlight[stream]);
    SpendingAtMost(w');
    TimesGrows(|Spending(w')|, c.maxInFlight, c.maxCost);
    SameSpend(w, w');
  }

  /** The same streams go on. */
  lemma MovedKeepsSpend(c: Settings, w: World, w': World, stream: StreamId, stage: Stage)
    requires SpendOk(c, w) && stream in w.inFlight && w'.platform == w.platform && w'.today == w.today
    requires w'.inFlight == w.inFlight[stream := w.inFlight[stream].(stage := stage)]
    requires stage.Cleared? || stage.Recorded? <==> stream in Spending(w)
    ensures SpendOk(c, w')
  {
    Larger(w.inFlight, stream, w'.inFlight[stream]);
    assert Spending(w') == Spending(w);
    SameSpend(w, w');
  }

  lemma StreamGone(w: World, w': World, stream: StreamId)
    requires stream in w.inFlight && w'.inFlight == w.inFlight - {stream}
    ensures |w'.inFlight| == |w.inFlight| - 1 && |Spending(w')| <= |Spending(w)|
    ensures stream in Spending(w) ==> |Spending(w')| == |Spending(w)| - 1
  {
    Smaller(w.inFlight, stream);
    assert Spending(w') == Spending(w) - {stream};
  }

  /** One stream fewer, whose cost is no more than was kept for it. */
  lemma FinalizeKeepsSpend(c: Settings, w: World, stream: StreamId, cost: real)
    requires SettingsOk(c) && SpendOk(c, w) && Enabled(c, w, Finalize(stream, cost))
    ensures SpendOk(c, After(c, w, Finalize(stream, cost)))
  {
    var w' := After(c, w, Finalize(stream, cost));
    StreamGone(w, w', stream);
    assert stream in Spending(w);
    TimesGrows(0, |Spending(w')|, c.maxCost);
    forall day: Day ensures SpentOn(w', day) < Ceiling(c) {
      assert day != w.today ==> SpentOn(w', day) == SpentOn(w, day);
    }
  }

  lemma LeaveKeepsSpend(c: Settings, w: World, stream: StreamId)
    requires SettingsOk(c) && SpendOk(c, w) && stream in w.inFlight
    ensures SpendOk(c, w.(inFlight := w.inFlight - {stream}))
  {
    var w' := w.(inFlight := w.inFlight - {stream});
    StreamGone(w, w', stream);
    TimesGrows(|Spending(w')|, |Spending(w)|, c.maxCost);
    SameSpend(w, w');
  }

  lemma SameSpend(w: World, w': World)
    requires w'.platform == w.platform
    ensures forall day: Day :: SpentOn(w', day) == SpentOn(w, day)
  {
  }

  /** A new day starts at zero, with the streams of the old one still to come. */
  lemma MidnightKeepsSpend(c: Settings, w: World, newMonth: bool)
    requires SettingsOk(c) && BooksOk(w) && SpendOk(c, w)
    ensures SpendOk(c, After(c, w, Midnight(newMonth)))
  {
    assert SpentOn(w, w.today + 1) == 0.0;
    SpendingAtMost(w);
    TimesGrows(|Spending(w)|, c.maxInFlight, c.maxCost);
    assert Spending(After(c, w, Midnight(newMonth))) == Spending(w);
    SameSpend(w, After(c, w, Midnight(newMonth)));
  }

  lemma StepKeepsSpend(c: Settings, w: World, s: Step)
    requires SettingsOk(c) && BooksOk(w) && SpendOk(c, w) && Enabled(c, w, s)
    ensures SpendOk(c, After(c, w, s))
  {
    match s
    case ReadSpend(stream, org, user) => BeginKeepsSpend(c, w, stream, org, user);
    case ReadQuestions(stream) => MovedKeepsSpend(c, w, After(c, w, s), stream, QuestionsRead);
    case ReadPlatform(stream) => ClearKeepsSpend(c, w, stream);
    case Record(stream) => MovedKeepsSpend(c, w, After(c, w, s), stream, Recorded(w.nextId));
    case Finalize(stream, cost) => FinalizeKeepsSpend(c, w, stream, cost);
    case Leave(stream) => LeaveKeepsSpend(c, w, stream);
    case Midnight(newMonth) => MidnightKeepsSpend(c, w, newMonth);
    case _ =>
      assert Spending(After(c, w, s)) == Spending(w);
      SameSpend(w, After(c, w, s));
  }

  // ---- whole runs --------------------------------------------------------------------

  predicate Takes(c: Settings, w: World, s: Step, w': World) {
    Enabled(c, w, s) && w' == After(c, w, s)
  }

  function Taken(c: Settings): (World, Step, World) -> bool {
    (w, s, w') => Takes(c, w, s, w')
  }

  ghost predicate IsRun(c: Settings, run: seq<World>, steps: seq<Step>) {
    Chain(Taken(c), run, steps) && run[0] == Start()
  }

  lemma InvAtStart(c: Settings)
    requires SettingsOk(c)
    ensures Inv(c, Start())
  {
    var w := Start();
    TimesGrows(0, c.maxInFlight, c.maxCost);
    assert forall day: Day :: SpentOn(w, day) == 0.0;
    assert Spending(w) == {};
    assert Sum(Or0(w.platform), 0) == 0.0 && Or0(w.platform)(0) == 0.0;
    assert PlatformTotal(w) == Sum(Or0(w.platform), 1);
  }

  lemma StepKeeps(c: Settings, w: World, s: Step)
    requires SettingsOk(c) && Inv(c, w) && Enabled(c, w, s)
    ensures Inv(c, After(c, w, s))
  {
    StepConserves(c, w, s);
    StepKeepsBooks(c, w, s);
    StepKeepsSpend(c, w, s);
  }

  lemma RunKeeps(c: Settings, run: seq<World>, steps: seq<Step>, i: nat)
    requires SettingsOk(c) && IsRun(c, run, steps) && i < |run|
    ensures Inv(c, run[i])
  {
    InvAtStart(c);
    forall w, s, w' | Inv(c, w) && Taken(c)(w, s, w') ensures Inv(c, w') {
      StepKeeps(c, w, s);
    }
    ChainKeeps(Taken(c), w => Inv(c, w), run, steps, i);
  }

  /** Over any interleaving, platform spend summed over the days equals everything ever booked
      for answers, and every answer still there shows what was booked for it. */
  lemma Conservation(c: Settings, run: seq<World>, steps: seq<Step>, i: nat)
    requires SettingsOk(c) && IsRun(c, run, steps) && i < |run|
    ensures PlatformTotal(run[i]) == BookedTotal(run[i])
    ensures forall id :: id in run[i].answers ==> id in run[i].booked && run[i].booked[id] == run[i].answers[id]
  {
    RunKeeps(c, run, steps, i);
  }

  /** What was booked for answers that are no longer there. */
  function MissingCosts(w: World): nat -> real {
    (id: nat) => if id in w.booked && id !in w.answers then w.booked[id].cost else 0.0
  }

  function MissingTotal(w: World): real {
    Sum(MissingCosts(w), w.nextId)
  }

  /** In every run the answers still there fall short of platform spend by exactly what was
      booked for those that are gone, so they add up to it if and only if none of these had
      been charged. */
  lemma LiveAddsUpIff(c: Settings, run: seq<World>, steps: seq<Step>, i: nat)
    requires SettingsOk(c) && IsRun(c, run, steps) && i < |run|
    ensures PlatformTotal(run[i]) == LiveTotal(run[i]) + MissingTotal(run[i])
    ensures LiveTotal(run[i]) == PlatformTotal(run[i])
            <==> (forall id: AnswerId :: id < run[i].nextId && id !in run[i].answers ==>
                    id in run[i].booked && run[i].booked[id].cost == 0.0)
  {
    var w := run[i];
    RunKeeps(c, run, steps, i);
    SumAdds(Costs(w.answers), MissingCosts(w), Costs(w.booked), w.nextId);
    SumIsZeroIff(MissingCosts(w), w.nextId);
    if MissingTotal(w) == 0.0 {
      forall id: AnswerId | id < w.nextId && id !in w.answers ensures w.booked[id].cost == 0.0 {
        assert MissingCosts(w)(id) == 0.0;
      }
    }
  }

  /** What the answers a deletion takes had cost. */
  function GoingCosts(w: World, s: Step): nat -> real
    requires IsDeletion(s)
  {
    (id: nat) => if id in w.answers && Goes(w.answers[id], s) then w.answers[id].cost else 0.0
  }

  /** A deletion, of an org or of a member's account, leaves platform spend alone, and keeps the
      two ledgers as far apart as they were exactly if the answers it takes cost nothing in
      total. */
  lemma DeletionConservesIff(w: World, s: Step)
    requires BooksOk(w) && IsDeletion(s)
    ensures PlatformTotal(Without(w, s)) == PlatformTotal(w)
    ensures LiveTotal(w) == LiveTotal(Without(w, s)) + Sum(GoingCosts(w, s), w.nextId)
    ensures PlatformTotal(Without(w, s)) - LiveTotal(Without(w, s)) == PlatformTotal(w) - LiveTotal(w)
            <==> Sum(GoingCosts(w, s), w.nextId) == 0.0
  {
    SumAdds(Costs(Without(w, s).answers), GoingCosts(w, s), Costs(w.answers), w.nextId);
  }

  /** While no org and no account has been deleted, the answers themselves add up to platform
      spend. */
  lemma {:induction false} ConservationWithoutDeletion(c: Settings, run: seq<World>, steps: seq<Step>, i: nat)
    requires SettingsOk(c) && IsRun(c, run, steps) && i < |run|
    requires forall k :: 0 <= k < |steps| ==> !IsDeletion(steps[k])
    ensures forall id: AnswerId :: id < run[i].nextId ==> id in run[i].answers
    ensures LiveTotal(run[i]) == PlatformTotal(run[i])
  {
    AllLive(c, run, steps, i);
    RunKeeps(c, run, steps, i);
    SumOneChanged(Costs(run[i].booked), Costs(run[i].answers), run[i].nextId, run[i].nextId);
  }

  lemma {:induction false} AllLive(c: Settings, run: seq<World>, steps: seq<Step>, i: nat)
    requires IsRun(c, run, steps) && i < |run|
    requires forall k :: 0 <= k < |steps| ==> !IsDeletion(steps[k])
    ensures forall id: AnswerId :: id < run[i].nextId ==> id in run[i].answers
  {
    if i > 0 {
      AllLive(c, run, steps, i - 1);
      assert Takes(c, run[i - 1], steps[i - 1], run[i - 1 + 1]);
      StepKeepsLive(c, run[i - 1], steps[i - 1]);
    }
  }

  lemma StepKeepsLive(c: Settings, w: World, s: Step)
    requires Enabled(c, w, s) && !IsDeletion(s) && forall id: AnswerId :: id < w.nextId ==> id in w.answers
    ensures forall id: AnswerId :: id < After(c, w, s).nextId ==> id in After(c, w, s).answers
  {
  }

  /** A day's spend, that of any day, stays below the platform budget plus what the streams in
      flight can cost, also when they were admitted the day before. */
  lemma Overshoot(c: Settings, run: seq<World>, steps: seq<Step>, i: nat, day: Day)
    requires SettingsOk(c) && IsRun(c, run, steps) && i < |run|
    ensures SpentOn(run[i], day) < c.platformBudget + c.maxInFlight as real * c.maxCost
  {
    SpentUnderCeiling(c, run, steps, i, day);
    CeilingIs(c);
  }

  lemma SpentUnderCeiling(c: Settings, run: seq<World>, steps: seq<Step>, i: nat, day: Day)
    requires SettingsOk(c) && IsRun(c, run, steps) && i < |run|
    ensures SpentOn(run[i], day) < Ceiling(c)
  {
    RunKeeps(c, run, steps, i);
  }

  lemma CeilingIs(c: Settings)
    ensures Ceiling(c) == c.platformBudget + c.maxInFlight as real * c.maxCost
  {
    TimesIs(c.maxInFlight, c.maxCost);
  }

  /** Finalising sets the row and adds to the day, so the two agree on an answer exactly if
      it had not been charged before. */
  lemma FinalizeConservesIff(w: World, id: AnswerId, cost: real)
    requires BooksOk(w) && id in w.answers
    ensures PlatformTotal(Finalized(w, id, cost)) - PlatformTotal(w) == LiveTotal(Finalized(w, id, cost)) - LiveTotal(w)
            <==> w.answers[id].cost == 0.0
  {
    SpentMore(w, id, cost);
    SumOneChanged(Costs(w.answers), Costs(Finalized(w, id, cost).answers), w.nextId, id);
  }
}
