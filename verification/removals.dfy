/** An org that removes its members after they have asked (knowledge_desk/tenancy.py:205-229,
    514-544, migrations/0004_answers.sql:5-14). */
module Removals {
  import opened Text
  import opened Sums
  import opened Chains
  import opened Ledgers
  import opened OrgBudget

  lemma Extend(c: Settings, run: seq<World>, steps: seq<Step>, w: World, s: Step, w': World)
    returns (run': seq<World>, steps': seq<Step>)
    requires IsRun(c, run, steps) && run[|steps|] == w && Takes(c, w, s, w')
    ensures IsRun(c, run', steps') && |steps'| == |steps| + 1 && run'[|steps'|] == w'
  {
    ChainExtends(Taken(c), run, steps, s, w');
    run', steps' := run + [w'], steps + [s];
  }

  /** Org 0 has got `n` questions through today, at `cost` each, and has no row left to show for
      it. */
  ghost predicate AllGone(w: World, n: nat, cost: real) {
    && w == World(0.0, 0, 0.0, map[], n, w.platform, map[], w.booked)
    && SpentOn(w, 0) == Times(n, cost) && TrueSpend(w, 0) == Times(n, cost)
    && (forall id: AnswerId :: id in w.booked <==> id < n) && |LetThroughIn(w.booked, 0, 0.0)| == n
  }

  /** So no limit of its own is in its way. */
  lemma NothingShows(w: World)
    requires w.answers == map[]
    ensures OrgSpend(w, 0) == 0.0 && Asked(w, 0) == {}
  {
    SumIsZeroIff(WindowCosts(w.answers, 0, w.now), w.nextId);
  }

  // ---- one member's question ---------------------------------------------------------

  function Asking(w: World, n: nat, stage: Stage): World {
    World(0.0, 0, 0.0, map[], n, w.platform, map[0 := Flight(0, n, stage)], w.booked)
  }

  function HasAsked(w: World, n: nat): World {
    var a := Answer(0, n, 0.0, 0.0, false);
    World(0.0, 0, 0.0, map[n := a], n + 1, w.platform, map[0 := Flight(0, n, Recorded(n))], w.booked[n := a])
  }

  /** What a member leaves behind by asking at `cost` and being removed: a charge. */
  function AfterRound(w: World, n: nat, cost: real): World {
    World(0.0, 0, 0.0, map[], n + 1, w.platform[0 := SpentOn(w, 0) + cost], map[],
          w.booked[n := Answer(0, n, 0.0, cost, false)])
  }

  function Charged(w: World, n: nat, cost: real): World {
    AfterRound(w, n, cost).(answers := map[n := Answer(0, n, 0.0, cost, false)])
  }

  ghost predicate RoomFor(c: Settings) {
    LimitsOk(c) && c.maxInFlight > 0 && c.maxOfOrg > 0
  }

  lemma Begins(c: Settings, w: World, n: nat)
    requires RoomFor(c) && w == World(0.0, 0, 0.0, map[], n, w.platform, map[], w.booked)
    ensures Takes(c, w, ReadSpend(0, 0, n), Asking(w, n, SpendRead))
  {
    NothingShows(w);
    assert FlightsOf(w, 0) == {};
    assert w.inFlight[0 := Flight(0, n, SpendRead)] == map[0 := Flight(0, n, SpendRead)];
  }

  lemma PassesCount(c: Settings, w: World, n: nat)
    requires RoomFor(c)
    ensures Takes(c, Asking(w, n, SpendRead), ReadQuestions(0), Asking(w, n, QuestionsRead))
  {
    NothingShows(Asking(w, n, SpendRead));
    assert Asking(w, n, SpendRead).inFlight[0 := Flight(0, n, QuestionsRead)] == map[0 := Flight(0, n, QuestionsRead)];
  }

  lemma PassesPlatform(c: Settings, w: World, n: nat)
    requires SpentOn(w, 0) < c.platformBudget
    ensures Takes(c, Asking(w, n, QuestionsRead), ReadPlatform(0), Asking(w, n, Cleared))
  {
    assert Asking(w, n, QuestionsRead).inFlight[0 := Flight(0, n, Cleared)] == map[0 := Flight(0, n, Cleared)];
    assert SpentOn(Asking(w, n, QuestionsRead), 0) == SpentOn(w, 0);
  }

  lemma IsRecorded(c: Settings, w: World, n: nat)
    ensures Takes(c, Asking(w, n, Cleared), Record(0), HasAsked(w, n))
  {
    assert Asking(w, n, Cleared).inFlight[0 := Flight(0, n, Recorded(n))] == map[0 := Flight(0, n, Recorded(n))];
  }

  lemma ChargedIs(w: World, n: nat, cost: real)
    ensures Finalized(HasAsked(w, n), n, cost).(inFlight := map[]) == Charged(w, n, cost)
  {
    var a := Answer(0, n, 0.0, cost, false);
    assert SpentOn(HasAsked(w, n), 0) == SpentOn(w, 0);
    assert HasAsked(w, n).answers[n := a] == map[n := a] && HasAsked(w, n).booked[n := a] == w.booked[n := a];
  }

  lemma IsCharged(c: Settings, w: World, n: nat, cost: real)
    requires 0.0 <= cost <= c.maxCost
    ensures Takes(c, HasAsked(w, n), Finalize(0, cost), Charged(w, n, cost))
  {
    assert HasAsked(w, n).inFlight - {0} == map[];
    ChargedIs(w, n, cost);
  }

  lemma IsRemoved(c: Settings, w: World, n: nat, cost: real)
    ensures Takes(c, Charged(w, n, cost), RemoveMember(n), AfterRound(w, n, cost))
  {
  }

  // ---- round after round -------------------------------------------------------------

  lemma ChargedMore(booked: map<AnswerId, Answer>, n: nat, a: Answer)
    requires (forall id :: id in booked ==> id < n) && InWindow(a, 0, 0.0)
    ensures Sum(WindowCosts(booked[n := a], 0, 0.0), n + 1) == Sum(WindowCosts(booked, 0, 0.0), n) + a.cost
  {
    SumExtends(WindowCosts(booked, 0, 0.0), WindowCosts(booked[n := a], 0, 0.0), n);
  }

  lemma OneMoreThrough(booked: map<AnswerId, Answer>, n: nat, cost: real)
    requires n !in booked
    ensures |LetThroughIn(booked[n := Answer(0, n, 0.0, cost, false)], 0, 0.0)| == |LetThroughIn(booked, 0, 0.0)| + 1
  {
    assert LetThroughIn(booked[n := Answer(0, n, 0.0, cost, false)], 0, 0.0) == LetThroughIn(booked, 0, 0.0) + {n};
  }

  lemma OneGoneMore(w: World, n: nat, cost: real)
    requires AllGone(w, n, cost)
    ensures AllGone(AfterRound(w, n, cost), n + 1, cost)
  {
    ChargedMore(w.booked, n, Answer(0, n, 0.0, cost, false));
    OneMoreThrough(w.booked, n, cost);
  }

  /** A new member gets past the limits and asks. */
  lemma Asks(c: Settings, run: seq<World>, steps: seq<Step>, w: World, n: nat)
    returns (run': seq<World>, steps': seq<Step>)
    requires RoomFor(c) && IsRun(c, run, steps) && run[|steps|] == w
    requires w == World(0.0, 0, 0.0, map[], n, w.platform, map[], w.booked) && SpentOn(w, 0) < c.platformBudget
    ensures IsRun(c, run', steps') && run'[|steps'|] == HasAsked(w, n)
  {
    Begins(c, w, n);
    PassesCount(c, w, n);
    PassesPlatform(c, w, n);
    IsRecorded(c, w, n);
    run', steps' := Extend(c, run, steps, w, ReadSpend(0, 0, n), Asking(w, n, SpendRead));
    run', steps' := Extend(c, run', steps', Asking(w, n, SpendRead), ReadQuestions(0), Asking(w, n, QuestionsRead));
    run', steps' := Extend(c, run', steps', Asking(w, n, QuestionsRead), ReadPlatform(0), Asking(w, n, Cleared));
    run', steps' := Extend(c, run', steps', Asking(w, n, Cleared), Record(0), HasAsked(w, n));
  }

  /** Is charged, and is removed. */
  lemma Round(c: Settings, run: seq<World>, steps: seq<Step>, w: World, n: nat, cost: real)
    returns (run': seq<World>, steps': seq<Step>)
    requires RoomFor(c) && IsRun(c, run, steps) && run[|steps|] == w && 0.0 <= cost <= c.maxCost
    requires w == World(0.0, 0, 0.0, map[], n, w.platform, map[], w.booked) && SpentOn(w, 0) < c.platformBudget
    ensures IsRun(c, run', steps') && run'[|steps'|] == AfterRound(w, n, cost)
  {
    IsCharged(c, w, n, cost);
    IsRemoved(c, w, n, cost);
    run', steps' := Asks(c, run, steps, w, n);
    run', steps' := Extend(c, run', steps', HasAsked(w, n), Finalize(0, cost), Charged(w, n, cost));
    run', steps' := Extend(c, run', steps', Charged(w, n, cost), RemoveMember(n), AfterRound(w, n, cost));
  }

  /** So the org's own limits bound what it shows, not what it does: whatever its budget and its cap,
      an org that removes its members after they have asked gets any number of questions through at
      one and the same moment, at any cost each, as long as the budget of the whole service lasts;
      and it shows neither spend nor questions. */
  lemma {:induction false} RemovalsUnbound(c: Settings, n: nat, cost: real)
    returns (run: seq<World>, steps: seq<Step>, w: World)
    requires RoomFor(c) && 0.0 <= cost <= c.maxCost && Times(n, cost) < c.platformBudget
    ensures IsRun(c, run, steps) && run[|steps|] == w
    ensures TrueSpend(w, 0) == Times(n, cost) && |LetThroughIn(w.booked, 0, w.monthStart)| == n
    ensures OrgSpend(w, 0) == 0.0 && Asked(w, 0) == {} && AllGone(w, n, cost)
  {
    if n == 0 {
      run, steps, w := [Start()], [], Start();
      NothingYet(c, cost);
    } else {
      run, steps, w := RemovalsUnbound(c, n - 1, cost);
      OneGoneMore(w, n - 1, cost);
      run, steps := Round(c, run, steps, w, n - 1, cost);
      w := AfterRound(w, n - 1, cost);
    }
    NothingShows(w);
  }

  lemma NothingYet(c: Settings, cost: real)
    ensures AllGone(Start(), 0, cost) && IsRun(c, [Start()], [])
  {
    assert LetThroughIn(Start().booked, 0, 0.0) == {};
  }
}
