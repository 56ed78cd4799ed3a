/** What the limits of one org come to: its spend over the last 24 hours and its questions this
    month, both read off the answers still there (knowledge_desk/assistant.py:35-47,
    knowledge_desk/tenancy.py:205-229, 481-544). */
module OrgBudget {
  import opened Text
  import opened Sums
  import opened Chains
  import opened Ledgers

  /** Limits that let anything through at all. */
  ghost predicate LimitsOk(c: Settings) {
    SettingsOk(c) && c.dailyBudget > 0.0 && c.monthlyCap > 0
  }

  // ---- one org's spend ---------------------------------------------------------------

  function OrgCeiling(c: Settings): real {
    c.dailyBudget + Times(c.maxOfOrg, c.maxCost)
  }

  /** What the org has spent in the window, and can still spend on the streams it has in flight. */
  ghost predicate OrgSpendOk(c: Settings, w: World, org: nat) {
    && |FlightsOf(w, org)| <= c.maxOfOrg
    && OrgSpend(w, org) + Times(|FlightsOf(w, org)|, c.maxCost) < OrgCeiling(c)
  }

  /** Time and deletions only ever take spend out of the window. */
  lemma SpendFalls(w: World, w': World, org: nat)
    requires BooksOk(w) && w'.nextId == w.nextId && w.now <= w'.now
    requires forall id :: id in w'.answers ==> id in w.answers && w'.answers[id] == w.answers[id]
    ensures OrgSpend(w', org) <= OrgSpend(w, org)
  {
    SumAtMost(WindowCosts(w.answers, org, w.now), WindowCosts(w'.answers, org, w'.now), w.nextId);
  }

  lemma RecordedSpend(w: World, user: nat, of: nat, blocked: bool, org: nat)
    requires BooksOk(w)
    ensures OrgSpend(WithAnswer(w, of, user, blocked), org) == OrgSpend(w, org)
  {
    var w' := WithAnswer(w, of, user, blocked);
    SumExtends(WindowCosts(w.answers, org, w.now), WindowCosts(w'.answers, org, w'.now), w.nextId);
  }

  lemma FinalizedSpend(c: Settings, w: World, stream: StreamId, cost: real, org: nat)
    requires BooksOk(w) && Enabled(c, w, Finalize(stream, cost))
    ensures var spend := OrgSpend(After(c, w, Finalize(stream, cost)), org);
            spend <= OrgSpend(w, org) + if w.inFlight[stream].org == org then cost else 0.0
  {
    var id, w' := w.inFlight[stream].stage.answer, After(c, w, Finalize(stream, cost));
    SumOneChanged(WindowCosts(w.answers, org, w.now), WindowCosts(w'.answers, org, w.now), w.nextId, id);
  }

  lemma FlightsGo(w: World, stream: StreamId, org: nat)
    requires stream in w.inFlight
    ensures FlightsOf(w.(inFlight := w.inFlight - {stream}), org) == FlightsOf(w, org) - {stream}
    ensures stream in FlightsOf(w, org) <==> w.inFlight[stream].org == org
  {
  }

  function OneMore(w: World, stream: StreamId, org: nat, user: nat): World {
    w.(inFlight := w.inFlight[stream := Flight(org, user, SpendRead)])
  }

  lemma FlightsCome(w: World, stream: StreamId, to: nat, user: nat, org: nat)
    requires stream !in w.inFlight
    ensures FlightsOf(OneMore(w, stream, to, user), org) == FlightsOf(w, org) + (if to == org then {stream} else {})
    ensures stream !in FlightsOf(w, org)
  {
  }

  lemma FlightsMove(w: World, stream: StreamId, stage: Stage, org: nat)
    requires stream in w.inFlight
    ensures FlightsOf(Moved(w, stream, stage), org) == FlightsOf(w, org)
  {
  }

  lemma BeginKeepsOrg(c: Settings, w: World, stream: StreamId, to: nat, user: nat, org: nat)
    requires LimitsOk(c) && BooksOk(w) && OrgSpendOk(c, w, org) && stream !in w.inFlight
    requires to == org ==> OrgSpend(w, org) < c.dailyBudget && |FlightsOf(w, org)| < c.maxOfOrg
    ensures OrgSpendOk(c, OneMore(w, stream, to, user), org)
  {
    var w' := OneMore(w, stream, to, user);
    SpendFalls(w, w', org);
    FlightsCome(w, stream, to, user, org);
    if to == org {
      TimesGrows(|FlightsOf(w', org)|, c.maxOfOrg, c.maxCost);
    }
  }

  lemma MoveKeepsOrg(c: Settings, w: World, stream: StreamId, stage: Stage, org: nat)
    requires BooksOk(w) && OrgSpendOk(c, w, org) && stream in w.inFlight
    ensures OrgSpendOk(c, Moved(w, stream, stage), org)
  {
    FlightsMove(w, stream, stage, org);
    SpendFalls(w, Moved(w, stream, stage), org);
  }

  lemma RecordKeepsOrg(c: Settings, w: World, s: Step, org: nat)
    requires LimitsOk(c) && BooksOk(w) && OrgSpendOk(c, w, org) && (s.Record? || s.RecordBlocked?) && Enabled(c, w, s)
    ensures OrgSpendOk(c, After(c, w, s), org)
  {
    var w' := After(c, w, s);
    assert FlightsOf(w', org) == FlightsOf(w, org);
    if s.Record? {
      RecordedSpend(w, w.inFlight[s.stream].user, w.inFlight[s.stream].org, false, org);
    } else {
      RecordedSpend(w, s.user, s.org, true, org);
    }
  }

  lemma FinalizeKeepsOrg(c: Settings, w: World, s: Step, org: nat)
    requires LimitsOk(c) && BooksOk(w) && OrgSpendOk(c, w, org) && s.Finalize? && Enabled(c, w, s)
    ensures OrgSpendOk(c, After(c, w, s), org)
  {
    var w' := After(c, w, s);
    FlightsGo(w, s.stream, org);
    assert FlightsOf(w', org) == FlightsOf(w, org) - {s.stream};
    FinalizedSpend(c, w, s.stream, s.cost, org);
    if w.inFlight[s.stream].org == org {
      assert |FlightsOf(w', org)| == |FlightsOf(w, org)| - 1;
    } else {
      assert FlightsOf(w', org) == FlightsOf(w, org);
    }
  }

  lemma OtherKeepsOrg(c: Settings, w: World, s: Step, org: nat)
    requires LimitsOk(c) && BooksOk(w) && OrgSpendOk(c, w, org) && Enabled(c, w, s)
    requires s.Leave? || s.Tick? || s.Midnight? || IsDeletion(s)
    ensures OrgSpendOk(c, After(c, w, s), org)
  {
    var w' := After(c, w, s);
    SpendFalls(w, w', org);
    assert FlightsOf(w', org) <= FlightsOf(w, org);
    SubsetSize(FlightsOf(w', org), FlightsOf(w, org));
    TimesGrows(|FlightsOf(w', org)|, |FlightsOf(w, org)|, c.maxCost);
  }

  lemma StepKeepsOrg(c: Settings, w: World, s: Step, org: nat)
    requires LimitsOk(c) && BooksOk(w) && OrgSpendOk(c, w, org) && Enabled(c, w, s)
    ensures OrgSpendOk(c, After(c, w, s), org)
  {
    match s
    case ReadSpend(stream, to, user) => BeginKeepsOrg(c, w, stream, to, user, org);
    case ReadQuestions(stream) => MoveKeepsOrg(c, w, stream, QuestionsRead, org);
    case ReadPlatform(stream) => MoveKeepsOrg(c, w, stream, Cleared, org);
    case Record(_) => RecordKeepsOrg(c, w, s, org);
    case RecordBlocked(_, _) => RecordKeepsOrg(c, w, s, org);
    case Finalize(_, _) => FinalizeKeepsOrg(c, w, s, org);
    case _ => OtherKeepsOrg(c, w, s, org);
  }

  lemma OrgAtStart(c: Settings, org: nat)
    requires LimitsOk(c)
    ensures OrgSpendOk(c, Start(), org)
  {
    TimesGrows(0, c.maxOfOrg, c.maxCost);
    assert FlightsOf(Start(), org) == {};
  }

  ghost predicate OrgInv(c: Settings, w: World, org: nat) {
    BooksOk(w) && OrgSpendOk(c, w, org)
  }

  lemma RunKeepsOrg(c: Settings, run: seq<World>, steps: seq<Step>, i: nat, org: nat)
    requires LimitsOk(c) && IsRun(c, run, steps) && i < |run|
    ensures OrgInv(c, run[i], org)
  {
    OrgAtStart(c, org);
    InvAtStart(c);
    forall w, s, w' | OrgInv(c, w, org) && Taken(c)(w, s, w') ensures OrgInv(c, w', org) {
      StepKeepsBooks(c, w, s);
      StepKeepsOrg(c, w, s, org);
    }
    ChainKeeps(Taken(c), w => OrgInv(c, w, org), run, steps, i);
  }

  /** In every run, at every moment: what an org's answers say it spent in the last 24 hours stays
      below its budget plus what its streams in flight can cost. */
  lemma OrgOvershoot(c: Settings, run: seq<World>, steps: seq<Step>, i: nat, org: nat)
    requires LimitsOk(c) && IsRun(c, run, steps) && i < |run|
    ensures OrgSpend(run[i], org) < c.dailyBudget + c.maxOfOrg as real * c.maxCost
  {
    RunKeepsOrg(c, run, steps, i, org);
    TimesGrows(0, |FlightsOf(run[i], org)|, c.maxCost);
    TimesIs(c.maxOfOrg, c.maxCost);
  }

  // ---- what was really spent ---------------------------------------------------------

  /** What the org has been charged for in the window, answers deleted since included. */
  function TrueSpend(w: World, org: nat): real {
    Sum(WindowCosts(w.booked, org, w.now), w.nextId)
  }

  function GoneCosts(w: World, org: nat): nat -> real {
    (id: nat) => if id in w.booked && id !in w.answers then WindowCosts(w.booked, org, w.now)(id) else 0.0
  }

  /** In every run the limit check sees all that was spent in the window if and only if none of the
      window's answers that are gone had been charged. */
  lemma SeesAllIff(c: Settings, run: seq<World>, steps: seq<Step>, i: nat, org: nat)
    requires SettingsOk(c) && IsRun(c, run, steps) && i < |run|
    ensures OrgSpend(run[i], org) <= TrueSpend(run[i], org)
    ensures OrgSpend(run[i], org) == TrueSpend(run[i], org)
            <==> (forall id :: id in run[i].booked && id !in run[i].answers ==>
                    InWindow(run[i].booked[id], org, run[i].now) ==> run[i].booked[id].cost == 0.0)
  {
    var w := run[i];
    Ledgers.RunKeeps(c, run, steps, i);
    SumAdds(WindowCosts(w.answers, org, w.now), GoneCosts(w, org), WindowCosts(w.booked, org, w.now), w.nextId);
    SumIsZeroIff(GoneCosts(w, org), w.nextId);
    if Sum(GoneCosts(w, org), w.nextId) == 0.0 {
      forall id | id in w.booked && id !in w.answers && InWindow(w.booked[id], org, w.now)
        ensures w.booked[id].cost == 0.0
      {
        assert GoneCosts(w, org)(id) == 0.0;
      }
    }
  }

  /** The part of the window's spend that is one member's. */
  function MemberCosts(w: World, org: nat, user: nat): nat -> real {
    (id: nat) => if id in w.answers && w.answers[id].user == user then WindowCosts(w.answers, org, w.now)(id) else 0.0
  }

  /** Removing a member takes that member's spend out of the window, and so frees an org that has
      exhausted its daily budget exactly if what is left is below it. */
  lemma RemovalFreesIff(c: Settings, w: World, org: nat, user: nat)
    requires BooksOk(w)
    ensures var w' := After(c, w, RemoveMember(user));
            && OrgSpend(w', org) == OrgSpend(w, org) - Sum(MemberCosts(w, org, user), w.nextId)
            && TrueSpend(w', org) == TrueSpend(w, org)
            && (OrgSpend(w', org) < c.dailyBudget
                <==> OrgSpend(w, org) - Sum(MemberCosts(w, org, user), w.nextId) < c.dailyBudget)
  {
    var w' := After(c, w, RemoveMember(user));
    SumAdds(WindowCosts(w'.answers, org, w.now), MemberCosts(w, org, user), WindowCosts(w.answers, org, w.now),
            w.nextId);
  }

  // ---- questions ---------------------------------------------------------------------

  function LetThroughIn(answers: map<AnswerId, Answer>, org: nat, since: real): set<AnswerId> {
    set id | id in AskedIn(answers, org, since) && !answers[id].blocked
  }

  /** The org's questions of the month that were let through, as far as they are still recorded. */
  function LetThrough(w: World, org: nat): set<AnswerId> {
    LetThroughIn(w.answers, org, w.monthStart)
  }

  /** Its streams that have passed the count and not recorded their question yet. */
  function Unrecorded(w: World, org: nat): set<StreamId> {
    set s | s in FlightsOf(w, org) && (w.inFlight[s].stage.QuestionsRead? || w.inFlight[s].stage.Cleared?)
  }

  ghost predicate MonthOk(c: Settings, w: World, org: nat) {
    && |FlightsOf(w, org)| <= c.maxOfOrg
    && |LetThrough(w, org)| + |Unrecorded(w, org)| < c.monthlyCap + c.maxOfOrg
  }

  lemma BeginKeepsMonth(c: Settings, w: World, stream: StreamId, to: nat, user: nat, org: nat)
    requires MonthOk(c, w, org) && stream !in w.inFlight && (to == org ==> |FlightsOf(w, org)| < c.maxOfOrg)
    ensures MonthOk(c, OneMore(w, stream, to, user), org)
  {
    var w' := OneMore(w, stream, to, user);
    FlightsCome(w, stream, to, user, org);
    assert forall s :: s in w.inFlight ==> w'.inFlight[s] == w.inFlight[s];
    assert Unrecorded(w', org) == Unrecorded(w, org);
  }

  /** The question is counted against the cap from here on. */
  lemma CountKeepsMonth(c: Settings, w: World, stream: StreamId, org: nat)
    requires MonthOk(c, w, org) && stream in w.inFlight
    requires w.inFlight[stream].org == org ==> |Asked(w, org)| < c.monthlyCap
    ensures MonthOk(c, Moved(w, stream, QuestionsRead), org)
  {
    var w' := Moved(w, stream, QuestionsRead);
    FlightsMove(w, stream, QuestionsRead, org);
    if w.inFlight[stream].org == org {
      SubsetSize(LetThrough(w, org), Asked(w, org));
      SubsetSize(Unrecorded(w', org), FlightsOf(w', org));
    } else {
      assert Unrecorded(w', org) == Unrecorded(w, org);
    }
  }

  lemma ClearKeepsMonth(c: Settings, w: World, stream: StreamId, org: nat)
    requires MonthOk(c, w, org) && StageIs(w, stream, QuestionsRead)
    ensures MonthOk(c, Moved(w, stream, Cleared), org)
  {
    FlightsMove(w, stream, Cleared, org);
    assert Unrecorded(Moved(w, stream, Cleared), org) == Unrecorded(w, org);
  }

  lemma LetThroughMore(w: World, org: nat, user: nat, to: nat)
    requires BooksOk(w)
    ensures w.nextId !in LetThrough(w, org)
    ensures LetThrough(WithAnswer(w, to, user, false), org)
            == LetThrough(w, org) + (if to == org then {w.nextId} else {})
  {
    assert w.nextId !in w.answers;
  }

  lemma UnrecordedFewer(w: World, stream: StreamId, id: AnswerId, org: nat)
    requires StageIs(w, stream, Cleared)
    ensures Unrecorded(Moved(w, stream, Recorded(id)), org) == Unrecorded(w, org) - {stream}
    ensures stream in Unrecorded(w, org) <==> w.inFlight[stream].org == org
  {
  }

  lemma RecordKeepsMonth(c: Settings, w: World, stream: StreamId, org: nat)
    requires BooksOk(w) && MonthOk(c, w, org) && StageIs(w, stream, Cleared)
    ensures var f := w.inFlight[stream];
            MonthOk(c, Moved(WithAnswer(w, f.org, f.user, false), stream, Recorded(w.nextId)), org)
  {
    var f := w.inFlight[stream];
    var w1 := WithAnswer(w, f.org, f.user, false);
    LetThroughMore(w, org, f.user, f.org);
    FlightsMove(w1, stream, Recorded(w.nextId), org);
    UnrecordedFewer(w1, stream, w.nextId, org);
    assert FlightsOf(w1, org) == FlightsOf(w, org) && Unrecorded(w1, org) == Unrecorded(w, org);
    assert LetThrough(Moved(w1, stream, Recorded(w.nextId)), org) == LetThrough(w1, org);
  }

  lemma OtherKeepsMonth(c: Settings, w: World, s: Step, org: nat)
    requires BooksOk(w) && MonthOk(c, w, org) && Enabled(c, w, s)
    requires s.Finalize? || s.Leave? || s.RecordBlocked? || s.Tick? || s.Midnight? || IsDeletion(s)
    ensures MonthOk(c, After(c, w, s), org)
  {
    var w' := After(c, w, s);
    assert w.nextId !in w.answers;
    assert FlightsOf(w', org) <= FlightsOf(w, org) && Unrecorded(w', org) <= Unrecorded(w, org);
    assert LetThrough(w', org) <= LetThrough(w, org);
    SubsetSize(FlightsOf(w', org), FlightsOf(w, org));
    SubsetSize(Unrecorded(w', org), Unrecorded(w, org));
    SubsetSize(LetThrough(w', org), LetThrough(w, org));
  }

  lemma StepKeepsMonth(c: Settings, w: World, s: Step, org: nat)
    requires BooksOk(w) && MonthOk(c, w, org) && Enabled(c, w, s)
    ensures MonthOk(c, After(c, w, s), org)
  {
    match s
    case ReadSpend(stream, to, user) => BeginKeepsMonth(c, w, stream, to, user, org);
    case ReadQuestions(stream) => CountKeepsMonth(c, w, stream, org);
    case ReadPlatform(stream) => ClearKeepsMonth(c, w, stream, org);
    case Record(stream) => RecordKeepsMonth(c, w, stream, org);
    case _ => OtherKeepsMonth(c, w, s, org);
  }

  lemma MonthAtStart(c: Settings, org: nat)
    requires LimitsOk(c)
    ensures MonthOk(c, Start(), org)
  {
    assert FlightsOf(Start(), org) == {} && Unrecorded(Start(), org) == {} && LetThrough(Start(), org) == {};
  }

  ghost predicate MonthInv(c: Settings, w: World, org: nat) {
    BooksOk(w) && MonthOk(c, w, org)
  }

  lemma RunKeepsMonth(c: Settings, run: seq<World>, steps: seq<Step>, i: nat, org: nat)
    requires LimitsOk(c) && IsRun(c, run, steps) && i < |run|
    ensures MonthInv(c, run[i], org)
  {
    MonthAtStart(c, org);
    InvAtStart(c);
    forall w, s, w' | MonthInv(c, w, org) && Taken(c)(w, s, w') ensures MonthInv(c, w', org) {
      StepKeepsBooks(c, w, s);
      StepKeepsMonth(c, w, s, org);
    }
    ChainKeeps(Taken(c), w => MonthInv(c, w, org), run, steps, i);
  }

  /** In every run the questions of the month that an org got through, as far as they are still
      recorded, overshoot its cap by less than the streams it has in flight at once. */
  lemma MonthlyOvershoot(c: Settings, run: seq<World>, steps: seq<Step>, i: nat, org: nat)
    requires LimitsOk(c) && IsRun(c, run, steps) && i < |run|
    ensures |LetThrough(run[i], org)| < c.monthlyCap + c.maxOfOrg
  {
    RunKeepsMonth(c, run, steps, i, org);
  }

  lemma SameSize(a: set<AnswerId>, b: set<AnswerId>)
    requires a <= b
    ensures |a| == |b| <==> a == b
  {
    assert b == a + (b - a);
    assert |b| == |a| + |b - a|;
  }

  /** In every run the cap counts all the questions asked this month if and only if none of them is
      gone. */
  lemma CountsAllIff(c: Settings, run: seq<World>, steps: seq<Step>, i: nat, org: nat)
    requires SettingsOk(c) && IsRun(c, run, steps) && i < |run|
    ensures var asked := AskedIn(run[i].booked, org, run[i].monthStart);
            && |Asked(run[i], org)| <= |asked|
            && (|Asked(run[i], org)| == |asked| <==> forall id :: id in asked ==> id in run[i].answers)
  {
    var w := run[i];
    Ledgers.RunKeeps(c, run, steps, i);
    var asked := AskedIn(w.booked, org, w.monthStart);
    assert forall id :: id in w.answers ==> id in w.booked && w.booked[id] == w.answers[id];
    assert Asked(w, org) <= asked;
    SubsetSize(Asked(w, org), asked);
    SameSize(Asked(w, org), asked);
    if forall id :: id in asked ==> id in w.answers {
      assert Asked(w, org) == asked;
    }
  }
}
