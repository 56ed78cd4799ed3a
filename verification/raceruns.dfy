/** Runs in which requests overtake each other's checks (knowledge_desk/tenancy.py:184-229,
    knowledge_desk/accounts.py:56-92, 251-269). */
module RaceRuns {
  import opened Text
  import opened Chains
  import opened Membership
  import opened Races

  // ---- building runs -----------------------------------------------------------------

  lemma Extend(run: seq<State>, steps: seq<Step>, s: State, a: Step)
    returns (run': seq<State>, steps': seq<Step>, s': State)
    requires IsRun(run, steps) && run[|steps|] == s && Enabled(s, a)
    ensures s' == After(s, a) && run' == run + [s'] && steps' == steps + [a]
    ensures IsRun(run', steps') && run'[|steps'|] == s'
  {
    s' := After(s, a);
    run', steps' := run + [s'], steps + [a];
    ChainExtends(Takes, run, steps, a, s');
  }

  /** A request passes all the checks of a role change or a removal, and has yet to write. */
  lemma Passes(run: seq<State>, steps: seq<Step>, s: State, x: Request, op: ScopedOp)
    returns (run': seq<State>, steps': seq<Step>, s': State)
    requires IsRun(run, steps) && run[|steps|] == s && x !in s.open && MayWrite(s.t, op)
    ensures IsRun(run', steps') && run'[|steps'|] == s' && steps' == steps + [Gate(x, op), Look(x), Look(x)]
    ensures s' == s.(open := s.open[x := Open(op, Cleared)])
  {
    run', steps', s' := Extend(run, steps, s, Gate(x, op));
    assert s'.open[x] == Open(op, Gated);
    run', steps', s' := Extend(run', steps', s', Look(x));
    assert s'.open[x] == Open(op, Found(s.t.roles[Target(op)]));
    run', steps', s' := Extend(run', steps', s', Look(x));
  }

  /** What those checks come to. */
  predicate MayWrite(t: Tables, op: ScopedOp) {
    && HasTarget(op) && GateOf(t, op) == Done && Target(op) in t.roles
    && !(Ousts(op) && t.roles[Target(op)] == Owner && LastOwner(t, op.actor.org))
  }

  /** The first org, with a second owner. */
  lemma TwoOwners() returns (run: seq<State>, steps: seq<Step>, s: State)
    ensures IsRun(run, steps) && run[|steps|] == s
    ensures steps == [SignUp("o", "a"), Gate(0, AddMember(Actor(1, 0), "b", Owner)), Write(0)]
    ensures s.open == map[] && 0 in s.t.orgs && Owners(s.t, 0) == {1, 2}
    ensures s.t.users == map[1 := "a", 2 := "b"] && s.t.nextId == 3
  {
    var op := AddMember(Actor(1, 0), "b", Owner);
    s := State(AfterOps([]), map[]);
    run, steps := [s], [];
    run, steps, s := Extend(run, steps, s, SignUp("o", "a"));
    var t1 := s.t;
    assert t1.roles == map[Grant(1, 0) := Owner] && t1.users == map[1 := "a"] && t1.nextId == 2 && 0 in t1.orgs;
    run, steps, s := Extend(run, steps, s, Gate(0, op));
    assert s.t == t1 && s.open == map[0 := Open(op, Gated)];
    SecondOwner(t1);
    run, steps, s := Extend(run, steps, s, Write(0));
    assert s.open == map[];
  }

  lemma SecondOwner(t: Tables)
    requires t.roles == map[Grant(1, 0) := Owner] && t.users == map[1 := "a"] && t.nextId == 2 && 0 in t.orgs
    ensures var t2 := Written(t, Open(AddMember(Actor(1, 0), "b", Owner), Gated));
            t2 == WithUser(t, 0, "b", Owner) && Owners(t2, 0) == {1, 2} && t2.users == map[1 := "a", 2 := "b"]
  {
    var t2 := WithUser(t, 0, "b", Owner);
    assert t2.roles == map[Grant(1, 0) := Owner, Grant(2, 0) := Owner];
    OwnersHold(t2, Grant(1, 0));
    OwnersHold(t2, Grant(2, 0));
  }

  // ---- no owner left -----------------------------------------------------------------

  /** `op` is a removal or a demotion of `target` by `actor`. */
  predicate OustsBy(op: Op, actor: Actor, target: UserId) {
    Ousts(op) && op.actor == actor && op.user == target
  }

  lemma OusterMayWrite(t: Tables, org: OrgId, a: UserId, b: UserId, op: ScopedOp)
    requires a != b && Owners(t, org) == {a, b} && OustsBy(op, Actor(a, org), b)
    ensures MayWrite(t, op)
  {
    OwnersAre(t, org, a, b);
    assert |{a, b}| == 2;
  }

  lemma OusterTakes(t: Tables, org: OrgId, a: UserId, b: UserId, op: ScopedOp)
    requires KeysOk(t) && a != b && Owners(t, org) == {a, b} && OustsBy(op, Actor(a, org), b)
    ensures var t' := Written(t, Open(op, Cleared)); OnlyOwner(t', Grant(a, org)) && t'.orgs == t.orgs
  {
    OwnersAre(t, org, a, b);
    GrantStays(t, Open(op, Cleared), Grant(a, org));
  }

  lemma OusterEnds(t: Tables, org: OrgId, a: UserId, b: UserId, op: ScopedOp, op': ScopedOp)
    requires Base(t) && a != b && Owners(t, org) == {a, b}
    requires OustsBy(op, Actor(a, org), b) && OustsBy(op', Actor(b, org), a)
    ensures var t2 := Written(Written(t, Open(op, Cleared)), Open(op', Cleared));
            t2.orgs == t.orgs && !HasOwner(t2, org)
  {
    var t1 := Written(t, Open(op, Cleared));
    OusterTakes(t, org, a, b, op);
    WrittenBase(t, Open(op, Cleared));
    OwnerGrant(t1, Grant(a, org));
    WriteLeavesOwnerIff(t1, Open(op', Cleared));
  }

  lemma BothPass(run: seq<State>, steps: seq<Step>, s: State, org: OrgId, a: UserId, b: UserId,
                 x: Request, y: Request, op: ScopedOp, op': ScopedOp)
    returns (run': seq<State>, steps': seq<Step>, s': State)
    requires IsRun(run, steps) && run[|steps|] == s && x != y && x !in s.open && y !in s.open
    requires a != b && Owners(s.t, org) == {a, b}
    requires OustsBy(op, Actor(a, org), b) && OustsBy(op', Actor(b, org), a)
    ensures IsRun(run', steps') && run'[|steps'|] == s'
    ensures steps' == steps + [Gate(x, op), Look(x), Look(x), Gate(y, op'), Look(y), Look(y)]
    ensures s' == s.(open := s.open[x := Open(op, Cleared)][y := Open(op', Cleared)])
  {
    assert Owners(s.t, org) == {b, a};
    OusterMayWrite(s.t, org, a, b, op);
    OusterMayWrite(s.t, org, b, a, op');
    run', steps', s' := Passes(run, steps, s, x, op);
    run', steps', s' := Passes(run', steps', s', y, op');
  }

  /** Two owners who each oust the other, in any combination of removing and demoting, with all
      checks before either write: both go through, and the org is left without an owner. */
  lemma OwnersRace(run: seq<State>, steps: seq<Step>, s: State, org: OrgId, a: UserId, b: UserId,
                   x: Request, y: Request, op: ScopedOp, op': ScopedOp)
    returns (run': seq<State>, steps': seq<Step>, s': State)
    requires IsRun(run, steps) && run[|steps|] == s && x != y && x !in s.open && y !in s.open
    requires a != b && Owners(s.t, org) == {a, b} && org in s.t.orgs
    requires OustsBy(op, Actor(a, org), b) && OustsBy(op', Actor(b, org), a)
    ensures IsRun(run', steps') && run'[|steps'|] == s'
    ensures steps' == steps + [Gate(x, op), Look(x), Look(x), Gate(y, op'), Look(y), Look(y), Write(x), Write(y)]
    ensures org in s'.t.orgs && !HasOwner(s'.t, org)
  {
    RunBase(run, steps, |steps|);
    OusterEnds(s.t, org, a, b, op, op');
    run', steps', s' := BothPass(run, steps, s, org, a, b, x, y, op, op');
    run', steps', s' := BothWrite(run', steps', s', x, y, op, op');
  }

  lemma BothWrite(run: seq<State>, steps: seq<Step>, s: State, x: Request, y: Request, op: ScopedOp, op': ScopedOp)
    returns (run': seq<State>, steps': seq<Step>, s': State)
    requires IsRun(run, steps) && run[|steps|] == s && x != y && HasTarget(op) && HasTarget(op')
    requires x in s.open && y in s.open && s.open[x] == Open(op, Cleared) && s.open[y] == Open(op', Cleared)
    ensures IsRun(run', steps') && run'[|steps'|] == s' && steps' == steps + [Write(x), Write(y)]
    ensures s'.t == Written(Written(s.t, Open(op, Cleared)), Open(op', Cleared))
  {
    run', steps', s' := Extend(run, steps, s, Write(x));
    run', steps', s' := Extend(run', steps', s', Write(y));
  }

  /** And that is reached from nothing. */
  lemma RaceRun(op: ScopedOp, op': ScopedOp) returns (run: seq<State>, steps: seq<Step>)
    requires OustsBy(op, Actor(1, 0), 2) && OustsBy(op', Actor(2, 0), 1)
    ensures IsRun(run, steps) && |steps| == 11
    ensures 0 in run[11].t.orgs && !HasOwner(run[11].t, 0)
  {
    var s;
    run, steps, s := TwoOwners();
    run, steps, s := OwnersRace(run, steps, s, 0, 1, 2, 0, 1, op, op');
  }

  // ---- owners made by others ---------------------------------------------------------

  /** `op` makes an owner in the name of `actor`: of a member, or of somebody new. */
  predicate Promotes(t: Tables, op: ScopedOp, actor: Actor) {
    && op.actor == actor && GateOf(t, op) == Done
    && ((op.AddMember? && MakesOwner(t, Open(op, Gated))) || (op.SetMemberRole? && MakesOwner(t, Open(op, Cleared))))
  }

  function Checked(op: ScopedOp): Open
    requires op.AddMember? || op.SetMemberRole?
  {
    Open(op, if op.AddMember? then Gated else Cleared)
  }

  lemma PassesPromotion(run: seq<State>, steps: seq<Step>, s: State, actor: Actor, x: Request, op: ScopedOp)
    returns (run': seq<State>, steps': seq<Step>, s': State)
    requires IsRun(run, steps) && run[|steps|] == s && x !in s.open && Promotes(s.t, op, actor)
    ensures IsRun(run', steps') && run'[|steps'|] == s' && |steps| < |steps'|
    ensures s' == s.(open := s.open[x := Checked(op)])
  {
    if op.AddMember? {
      run', steps', s' := Extend(run, steps, s, Gate(x, op));
    } else {
      run', steps', s' := Passes(run, steps, s, x, op);
    }
  }

  /** A demotion of its author does not stop the write. */
  lemma StaleOnceDemoted(t: Tables, org: OrgId, a: UserId, b: UserId, op: ScopedOp)
    requires Owners(t, org) == {a, b} && Promotes(t, op, Actor(b, org))
    ensures var t' := WithRole(t, Grant(b, org), Member);
            Written(t, Open(SetMemberRole(Actor(a, org), b, Member), Cleared)) == t' && StalePromotion(t', Checked(op))
  {
    var t' := WithRole(t, Grant(b, org), Member);
    OwnersAre(t, org, a, b);
    OwnersHold(t', Grant(b, org));
  }

  /** Of two owners one passes the check for making an owner, by promoting a member or by adding
      somebody, and is demoted by the other; then it is written all the same. */
  lemma PromotionRace(run: seq<State>, steps: seq<Step>, s: State, org: OrgId, a: UserId, b: UserId,
                      x: Request, y: Request, op: ScopedOp)
    returns (run': seq<State>, steps': seq<Step>, s': State)
    requires IsRun(run, steps) && run[|steps|] == s && x != y && x !in s.open && y !in s.open
    requires a != b && Owners(s.t, org) == {a, b} && Promotes(s.t, op, Actor(b, org))
    ensures IsRun(run', steps') && run'[|steps'|] == s'
    ensures x in s'.open && s'.open[x].op == op
    ensures Enabled(s', Write(x)) && Writes(s', Write(x), StalePromotion) && !OwnersByOwners(s', Write(x))
  {
    var demote := SetMemberRole(Actor(a, org), b, Member);
    OusterMayWrite(s.t, org, a, b, demote);
    run', steps', s' := PassesPromotion(run, steps, s, Actor(b, org), x, op);
    run', steps', s' := Passes(run', steps', s', y, demote);
    assert s'.open[y] == Open(demote, Cleared) && s'.open[x] == Checked(op);
    StaleOnceDemoted(s.t, org, a, b, op);
    run', steps', s' := Extend(run', steps', s', Write(y));
    assert s'.open[x] == Checked(op);
    RunBase(run', steps', |steps'|);
    OwnersByOwnersIff(s', Write(x));
  }

  /** From nothing: a demoted owner adds an owner. */
  lemma StaleOwnerRun() returns (run: seq<State>, steps: seq<Step>, s: State)
    ensures IsRun(run, steps) && run[|steps|] == s && 0 in s.open && Writes(s, Write(0), StalePromotion)
    ensures s.open[0].op == AddMember(Actor(2, 0), "c", Owner)
  {
    run, steps, s := TwoOwners();
    OwnersAre(s.t, 0, 1, 2);
    run, steps, s := PromotionRace(run, steps, s, 0, 1, 2, 0, 1, AddMember(Actor(2, 0), "c", Owner));
  }

  lemma ThirdMember(t: Tables)
    requires KeysOk(t) && Owners(t, 0) == {1, 2} && 0 in t.orgs && t.nextId == 3
    ensures var t' := WithUser(t, 0, "c", Member);
            Owners(t', 0) == {1, 2} && Promotes(t', SetMemberRole(Actor(2, 0), 3, Owner), Actor(2, 0))
  {
    var t' := WithUser(t, 0, "c", Member);
    OwnersAre(t, 0, 1, 2);
    assert forall g :: g in t.roles ==> g.user != 3;
    forall u ensures u in Owners(t', 0) <==> u in Owners(t, 0) {
      OwnersHold(t, Grant(u, 0));
      OwnersHold(t', Grant(u, 0));
    }
  }

  /** Likewise a demoted owner promotes a member. */
  lemma StalePromotionRun() returns (run: seq<State>, steps: seq<Step>, s: State)
    ensures IsRun(run, steps) && run[|steps|] == s && 0 in s.open && Writes(s, Write(0), StalePromotion)
    ensures s.open[0].op == SetMemberRole(Actor(2, 0), 3, Owner)
  {
    run, steps, s := TwoOwners();
    RunBase(run, steps, |steps|);
    ThirdMember(s.t);
    run, steps, s := Adds(run, steps, s, 0, 1, 0, "c", Member);
    run, steps, s := PromotionRace(run, steps, s, 0, 1, 2, 0, 1, SetMemberRole(Actor(2, 0), 3, Owner));
  }

  // ---- nowhere to belong -------------------------------------------------------------

  lemma StrandsTheNew(t: Tables, org: OrgId, a: UserId, email: string, role: Role)
    requires KeysOk(t) && a in Owners(t, org) && !EmailTaken(t, email)
    ensures var t2 := OrgGone(WithUser(t, org, email, role), org, MembersOf(t, org));
            EmailTaken(t2, email) && !Placed(t2)
  {
    OwnersHold(t, Grant(a, org));
    var t1 := WithUser(t, org, email, role);
    assert Grant(t.nextId, org) in t1.roles;
    assert t.nextId !in MembersOf(t, org);
    var t2 := OrgGone(t1, org, MembersOf(t, org));
    assert t2.users[t.nextId] == email && !HasGrant(t2, t.nextId);
  }

  lemma ListsMembers(run: seq<State>, steps: seq<Step>, s: State, org: OrgId, a: UserId, x: Request)
    returns (run': seq<State>, steps': seq<Step>, s': State)
    requires IsRun(run, steps) && run[|steps|] == s && x !in s.open && a in Owners(s.t, org)
    ensures IsRun(run', steps') && run'[|steps'|] == s'
    ensures steps' == steps + [Gate(x, DeleteOrg(Actor(a, org))), Look(x)]
    ensures s' == s.(open := s.open[x := Open(DeleteOrg(Actor(a, org)), Listed(MembersOf(s.t, org)))])
  {
    OwnersHold(s.t, Grant(a, org));
    run', steps', s' := Extend(run, steps, s, Gate(x, DeleteOrg(Actor(a, org))));
    assert s'.open[x] == Open(DeleteOrg(Actor(a, org)), Gated);
    run', steps', s' := Extend(run', steps', s', Look(x));
  }

  lemma Adds(run: seq<State>, steps: seq<Step>, s: State, org: OrgId, a: UserId, y: Request, email: string, role: Role)
    returns (run': seq<State>, steps': seq<Step>, s': State)
    requires IsRun(run, steps) && run[|steps|] == s && y !in s.open && a in Owners(s.t, org) && org in s.t.orgs
    requires !EmailTaken(s.t, email)
    ensures IsRun(run', steps') && run'[|steps'|] == s'
    ensures steps' == steps + [Gate(y, AddMember(Actor(a, org), email, role)), Write(y)]
    ensures s' == s.(t := WithUser(s.t, org, email, role))
  {
    OwnersHold(s.t, Grant(a, org));
    run', steps', s' := Extend(run, steps, s, Gate(y, AddMember(Actor(a, org), email, role)));
    assert s'.t == s.t && s'.open[y] == Open(AddMember(Actor(a, org), email, role), Gated);
    run', steps', s' := Extend(run', steps', s', Write(y));
    assert s'.open == s.open;
  }

  /** Somebody is added to the org between the listing of its members and its deletion. */
  lemma ListsAndAdds(run: seq<State>, steps: seq<Step>, s: State, org: OrgId, a: UserId, email: string, role: Role,
                     x: Request, y: Request)
    returns (run': seq<State>, steps': seq<Step>, s': State)
    requires IsRun(run, steps) && run[|steps|] == s && x != y && x !in s.open && y !in s.open
    requires a in Owners(s.t, org) && org in s.t.orgs && !EmailTaken(s.t, email)
    ensures IsRun(run', steps') && run'[|steps'|] == s'
    ensures var delete, add := DeleteOrg(Actor(a, org)), AddMember(Actor(a, org), email, role);
            steps' == steps + [Gate(x, delete), Look(x), Gate(y, add), Write(y)]
    ensures x in s'.open && s'.open[x] == Open(DeleteOrg(Actor(a, org)), Listed(MembersOf(s.t, org)))
    ensures s'.t == WithUser(s.t, org, email, role)
  {
    run', steps', s' := ListsMembers(run, steps, s, org, a, x);
    run', steps', s' := Adds(run', steps', s', org, a, y, email, role);
  }

  lemma OwnersOrg(run: seq<State>, steps: seq<Step>, org: OrgId, a: UserId)
    requires IsRun(run, steps) && a in Owners(run[|steps|].t, org)
    ensures KeysOk(run[|steps|].t) && org in run[|steps|].t.orgs
  {
    RunBase(run, steps, |steps|);
    OwnersHold(run[|steps|].t, Grant(a, org));
  }

  lemma Deletes(s: State, org: OrgId, a: UserId, ids: set<UserId>, x: Request)
    requires x in s.open && s.open[x] == Open(DeleteOrg(Actor(a, org)), Listed(ids))
    ensures Enabled(s, Write(x)) && After(s, Write(x)).t == OrgGone(s.t, org, ids)
  {
  }

  /** An owner deletes the org, and while its members are being listed and it is deleted, adds one
      more: that account is left with no membership, and its email stays taken. */
  lemma StrandRace(run: seq<State>, steps: seq<Step>, s: State, org: OrgId, a: UserId, email: string, role: Role,
                   x: Request, y: Request)
    returns (run': seq<State>, steps': seq<Step>, s': State)
    requires IsRun(run, steps) && run[|steps|] == s && x != y && x !in s.open && y !in s.open
    requires a in Owners(s.t, org) && !EmailTaken(s.t, email)
    ensures IsRun(run', steps') && run'[|steps'|] == s'
    ensures var delete, add := DeleteOrg(Actor(a, org)), AddMember(Actor(a, org), email, role);
            steps' == steps + [Gate(x, delete), Look(x), Gate(y, add), Write(y), Write(x)]
    ensures EmailTaken(s'.t, email) && !Placed(s'.t)
  {
    OwnersOrg(run, steps, org, a);
    StrandsTheNew(s.t, org, a, email, role);
    run', steps', s' := ListsAndAdds(run, steps, s, org, a, email, role, x, y);
    Deletes(s', org, a, MembersOf(s.t, org), x);
    run', steps', s' := Extend(run', steps', s', Write(x));
  }

  /** From nothing. */
  lemma StrandRun() returns (run: seq<State>, steps: seq<Step>)
    ensures IsRun(run, steps) && |steps| == 8
    ensures EmailTaken(run[8].t, "c") && !Placed(run[8].t)
  {
    var s;
    run, steps, s := TwoOwners();
    run, steps, s := StrandRace(run, steps, s, 0, 1, "c", Member, 0, 1);
  }
}
