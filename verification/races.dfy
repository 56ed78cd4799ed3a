/** The same operations statement by statement: a request resolves its session, reads what its
    checks need, and writes, with other requests in between (knowledge_desk/tenancy.py:46-229,
    knowledge_desk/accounts.py:30-92, 147-167, 251-269, knowledge_desk/main.py:159-164, 329-335).
    What a transaction writes is one step; its reads see whatever is committed by then. */
module Races {
  import opened Text
  import opened Chains
  import opened Membership

  type Request = nat

  /** A sign-up reads nothing; everything else is done by a session in its org. */
  type ScopedOp = op: Op | !op.CreateOrgWithOwner? witness RemoveMember(Actor(0, 0), 0)

  /** How far a request has read. */
  datatype Stage =
    | Gated                       // its session has resolved to a role that may do this
    | Found(role: Role)           // the role of the member to be changed or removed
    | InOrg                       // the group is one of the org
    | Listed(ids: set<UserId>)    // the members of the org to be deleted
    | Cleared                     // the last check has passed

  datatype Open = Open(op: ScopedOp, stage: Stage)

  datatype State = State(t: Tables, open: map<Request, Open>)

  datatype Step =
    | SignUp(slug: string, email: string)
    | Gate(request: Request, op: ScopedOp)
    | Look(request: Request)
    | Write(request: Request)

  // ---- what a request reads ----------------------------------------------------------

  /** The checks made on the session alone. */
  function GateOf(t: Tables, op: ScopedOp): Outcome {
    var gate := if op.AddMember? || op.SetMemberRole? then RequireCanGrant(t, op.actor, op.role)
                else Require(t, op.actor, if op.DeleteOrg? then Owner else Admin);
    if gate == Done && HasTarget(op) && op.user == op.actor.user then Forbidden else gate
  }

  /** The member whose role changes or who is removed. */
  predicate HasTarget(op: Op) { op.SetMemberRole? || op.RemoveMember? }

  function Target(op: Op): Grant
    requires HasTarget(op)
  {
    Grant(op.user, op.actor.org)
  }

  /** The operation takes ownership from its target, if that has it. */
  predicate Ousts(op: Op) { op.RemoveMember? || (op.SetMemberRole? && op.role != Owner) }

  predicate Ready(o: Open) {
    match o.op
    case DeleteOrg(_) => o.stage.Listed?
    case AddMember(_, _, _) => o.stage.Gated?
    case CreateGroup(_, _) => o.stage.Gated?
    case DeleteGroup(_, _) => o.stage.Gated?
    case _ => o.stage.Cleared?
  }

  /** What the next read makes of the request, unless it ends there. */
  function Next(t: Tables, o: Open): Option<Stage> {
    var a := o.op.actor;
    if Ready(o) then None
    else match o.stage
      case Gated =>
        if o.op.DeleteOrg? then Some(Listed(MembersOf(t, a.org)))
        else if HasTarget(o.op) then if Target(o.op) in t.roles then Some(Found(t.roles[Target(o.op)])) else None
        else if !(o.op.AddGroupMember? || o.op.RemoveGroupMember?) || !OwnGroup(t, a, o.op.group) then None
        else if o.op.AddGroupMember? then Some(InOrg)
        else Some(Cleared)
      case Found(role) =>
        if !HasTarget(o.op) || (Ousts(o.op) && role == Owner && LastOwner(t, a.org)) then None else Some(Cleared)
      case InOrg => if o.op.AddGroupMember? && Grant(o.op.user, a.org) in t.roles then Some(Cleared) else None
      case _ => None
  }

  // ---- what it writes ----------------------------------------------------------------

  /** The statements behind the reads. They look at nothing but keys: foreign ones, unique ones, and
      that of the row to be changed. */
  function Written(t: Tables, o: Open): Tables
    requires Ready(o)
  {
    match o.op
    case AddMember(a, email, role) =>
      if a.org !in t.orgs || EmailTaken(t, email) then t else WithUser(t, a.org, email, role)
    case SetMemberRole(_, _, role) => if Target(o.op) in t.roles then WithRole(t, Target(o.op), role) else t
    case RemoveMember(_, user) => Purged(Without(t, Target(o.op)), {user})
    case CreateGroup(a, name) =>
      if a.org !in t.orgs || Group(a.org, name) in t.groups.Values then t else WithGroup(t, a.org, name)
    case DeleteGroup(a, group) => if OwnGroup(t, a, group) then GroupDeleted(t, group) else t
    case AddGroupMember(_, group, user) =>
      if group in t.groups && user in t.users then WithSeat(t, Seat(group, user)) else t
    case RemoveGroupMember(_, group, user) => WithoutSeat(t, Seat(group, user))
    case DeleteOrg(a) => OrgGone(t, a.org, o.stage.ids)
  }

  predicate Enabled(s: State, a: Step) {
    match a
    case SignUp(slug, email) => !SlugTaken(s.t, slug) && !EmailTaken(s.t, email)
    case Gate(request, op) => request !in s.open && GateOf(s.t, op) == Done
    case Look(request) => request in s.open && Next(s.t, s.open[request]).Some?
    case Write(request) => request in s.open && Ready(s.open[request])
  }

  function After(s: State, a: Step): State
    requires Enabled(s, a)
  {
    match a
    case SignUp(slug, email) => s.(t := SignedUp(s.t, slug, email))
    case Gate(request, op) => s.(open := s.open[request := Open(op, Gated)])
    case Look(request) =>
      s.(open := s.open[request := s.open[request].(stage := Next(s.t, s.open[request]).value)])
    case Write(request) => State(Written(s.t, s.open[request]), s.open - {request})
  }

  predicate Takes(s: State, a: Step, s': State) {
    Enabled(s, a) && s' == After(s, a)
  }

  ghost predicate IsRun(run: seq<State>, steps: seq<Step>) {
    Chain(Takes, run, steps) && run[0] == State(AfterOps([]), map[])
  }

  // ---- all at once -------------------------------------------------------------------

  /** The request after all its reads, made with nothing in between. */
  function ReadOn(t: Tables, o: Open, more: nat): (r: Option<Open>)
    ensures r.Some? ==> Ready(r.value) && r.value.op == o.op
    decreases more
  {
    if Ready(o) then Some(o)
    else if more == 0 || Next(t, o).None? then None
    else ReadOn(t, o.(stage := Next(t, o).value), more - 1)
  }

  function ReadAll(t: Tables, op: ScopedOp): (r: Option<Open>)
    ensures r.Some? ==> Ready(r.value) && r.value.op == op
  {
    if GateOf(t, op) == Done then ReadOn(t, Open(op, Gated), 2) else None
  }

  /** The write takes ownership from an only owner. */
  predicate EndsOwnership(t: Tables, o: Open) {
    Ousts(o.op) && OnlyOwner(t, Target(o.op))
  }

  /** `grant` is its org's one and only grant of ownership. */
  predicate OnlyOwner(t: Tables, grant: Grant) {
    && grant in t.roles && t.roles[grant] == Owner
    && forall g :: g in t.roles && g.org == grant.org && t.roles[g] == Owner ==> g == grant
  }

  /** The write deletes an org without naming all its members. */
  predicate Strands(t: Tables, o: Open) {
    o.op.DeleteOrg? && o.stage.Listed? && !NamesAll(t, o.op.actor.org, o.stage.ids)
  }

  /** The write makes somebody an owner of an org. */
  predicate MakesOwner(t: Tables, o: Open) {
    match o.op
    case AddMember(a, email, role) => role == Owner && a.org in t.orgs && !EmailTaken(t, email)
    case SetMemberRole(_, _, role) => role == Owner && Target(o.op) in t.roles && t.roles[Target(o.op)] != Owner
    case _ => false
  }

  /** And that in the name of someone who is not an owner, or no longer. */
  predicate StalePromotion(t: Tables, o: Open) {
    MakesOwner(t, o) && o.op.actor.user !in Owners(t, o.op.actor.org)
  }

  lemma OnlyOwnerIff(t: Tables, grant: Grant)
    requires grant in t.roles && t.roles[grant] == Owner
    ensures OnlyOwner(t, grant) <==> LastOwner(t, grant.org)
  {
    OwnersHold(t, grant);
    if OnlyOwner(t, grant) {
      assert Owners(t, grant.org) == {grant.user};
    } else {
      var g :| g in t.roles && g.org == grant.org && t.roles[g] == Owner && g != grant;
      OwnersHold(t, g);
      assert {g.user, grant.user} <= Owners(t, grant.org);
      TwoAtLeast(Owners(t, grant.org), g.user, grant.user);
    }
  }

  lemma TwoAtLeast(s: set<UserId>, x: UserId, y: UserId)
    requires x in s && y in s && x != y
    ensures |s| >= 2
  {
    assert |s - {x} - {y}| == |s| - 2;
  }

  /** With nothing in between a request is what its operation is as a single step, and its checks
      rule all three bad writes out. */
  lemma AtOnce(t: Tables, op: ScopedOp)
    requires KeysOk(t)
    ensures var o := ReadAll(t, op);
            && Apply(t, op).tables == (if o.Some? then Written(t, o.value) else t)
            && (o.Some? ==> !EndsOwnership(t, o.value) && !Strands(t, o.value) && !StalePromotion(t, o.value))
  {
    match op
    case SetMemberRole(a, user, role) => TargetAtOnce(t, op);
    case RemoveMember(a, user) => TargetAtOnce(t, op);
    case AddMember(a, _, role) => OwnersHold(t, Grant(a.user, a.org));
    case _ => OthersAtOnce(t, op);
  }

  lemma ReadTwo(t: Tables, o: Open)
    requires !Ready(o) && Next(t, o).Some? && !Ready(o.(stage := Next(t, o).value))
    ensures var o' := o.(stage := Next(t, o).value); ReadOn(t, o, 2) == ReadOn(t, o', 1)
    ensures var o' := o.(stage := Next(t, o).value);
            Next(t, o').Some? && Ready(o'.(stage := Next(t, o').value)) ==>
              ReadOn(t, o', 1) == Some(o'.(stage := Next(t, o').value))
    ensures var o' := o.(stage := Next(t, o).value);
            Next(t, o').None? ==> ReadOn(t, o', 1) == None
  {
  }

  lemma TargetAtOnce(t: Tables, op: ScopedOp)
    requires HasTarget(op)
    ensures var o := ReadAll(t, op);
            && Apply(t, op).tables == (if o.Some? then Written(t, o.value) else t)
            && (o.Some? ==> !EndsOwnership(t, o.value) && !StalePromotion(t, o.value))
  {
    OwnersHold(t, Grant(op.actor.user, op.actor.org));
    if Target(op) in t.roles {
      ReadTwo(t, Open(op, Gated));
    }
    if Target(op) in t.roles && t.roles[Target(op)] == Owner {
      OnlyOwnerIff(t, Target(op));
    }
  }

  lemma OthersAtOnce(t: Tables, op: ScopedOp)
    requires KeysOk(t) && !HasTarget(op) && !op.AddMember?
    ensures var o := ReadAll(t, op);
            && Apply(t, op).tables == (if o.Some? then Written(t, o.value) else t)
            && (o.Some? ==> !Strands(t, o.value))
  {
  }

  // ---- what no interleaving breaks ---------------------------------------------------

  /** Rows go on as they are or go for good: ids are not used again, a group stays in its org, and a
      membership goes only together with its user or its org. */
  ghost predicate GoesOn(t: Tables, t': Tables) {
    && t.nextId <= t'.nextId
    && (forall u :: u in t'.users && u !in t.users ==> u >= t.nextId)
    && (forall o :: o in t'.orgs && o !in t.orgs ==> o >= t.nextId)
    && (forall g :: g in t'.groups ==> if g in t.groups then t'.groups[g].org == t.groups[g].org else g >= t.nextId)
    && (forall g :: g in t.roles && g.user in t'.users && g.org in t'.orgs ==> g in t'.roles)
  }

  /** What a request that adds to a group has found out stays true until it writes. */
  predicate SeatRight(t: Tables, o: Open) {
    o.op.AddGroupMember? ==>
      var group, grant := o.op.group, Grant(o.op.user, o.op.actor.org);
      && (o.stage.InOrg? || o.stage.Cleared? ==>
            group < t.nextId && (group in t.groups ==> t.groups[group].org == grant.org))
      && (o.stage.Cleared? ==>
            && grant.user < t.nextId && grant.org < t.nextId
            && (grant.user in t.users && grant.org in t.orgs ==> grant in t.roles))
  }

  lemma SeatStaysRight(t: Tables, t': Tables, o: Open)
    requires GoesOn(t, t') && SeatRight(t, o)
    ensures SeatRight(t', o)
  {
  }

  lemma LookedSeat(t: Tables, o: Open)
    requires KeysOk(t) && SeatRight(t, o) && Next(t, o).Some?
    ensures SeatRight(t, o.(stage := Next(t, o).value))
  {
  }

  lemma RemoveAgain(t: Tables, grant: Grant)
    requires grant !in t.roles
    ensures Without(t, grant) == t
  {
  }

  lemma PurgedBase(t: Tables, ids: set<UserId>)
    requires Base(t)
    ensures Base(Purged(t, ids)) && GoesOn(t, Purged(t, ids))
  {
  }

  lemma RemovedBase(t: Tables, grant: Grant)
    requires Base(t)
    ensures Base(Purged(Without(t, grant), {grant.user})) && GoesOn(t, Purged(Without(t, grant), {grant.user}))
  {
    if grant in t.roles {
      RemoveBase(t, grant);
      RemovedTables(t, grant);
    } else {
      RemoveAgain(t, grant);
      PurgedBase(t, {grant.user});
    }
  }

  lemma GroupWriteBase(t: Tables, o: Open)
    requires Base(t) && SeatRight(t, o) && Ready(o)
    requires o.op.CreateGroup? || o.op.DeleteGroup? || o.op.AddGroupMember? || o.op.RemoveGroupMember?
    ensures var t' := Written(t, o); SameAccounts(t, t') && Base(t') && GoesOn(t, t')
  {
    GroupWriteSeats(t, o);
    GroupsBase(t, Written(t, o));
  }

  lemma GroupWriteSeats(t: Tables, o: Open)
    requires KeysOk(t) && SeatsOk(t) && SeatRight(t, o) && Ready(o)
    requires o.op.CreateGroup? || o.op.DeleteGroup? || o.op.AddGroupMember? || o.op.RemoveGroupMember?
    ensures var t' := Written(t, o);
            && SameAccounts(t, t') && SeatsOk(t') && GoesOn(t, t')
            && forall g :: g in t'.groups ==> g < t'.nextId && t'.groups[g].org in t.orgs
  {
  }

  lemma WrittenBase(t: Tables, o: Open)
    requires Base(t) && SeatRight(t, o) && Ready(o)
    ensures Base(Written(t, o)) && GoesOn(t, Written(t, o))
  {
    match o.op
    case AddMember(a, email, role) =>
      if a.org in t.orgs && !EmailTaken(t, email) {
        NewUserBase(t, a.org, email, role);
      }
    case SetMemberRole(_, _, role) =>
      if Target(o.op) in t.roles {
        SetRoleBase(t, Target(o.op), role);
      }
    case RemoveMember(_, _) => RemovedBase(t, Target(o.op));
    case DeleteOrg(a) =>
      OrgGoneBase(t, a.org, o.stage.ids);
      assert OrgGone(t, a.org, o.stage.ids).roles == OrgDeleted(t, a.org).roles;
    case _ => GroupWriteBase(t, o);
  }

  ghost predicate AllRight(s: State) {
    Base(s.t) && forall r :: r in s.open ==> SeatRight(s.t, s.open[r])
  }

  lemma StepKeepsRight(s: State, a: Step)
    requires AllRight(s) && Enabled(s, a)
    ensures AllRight(After(s, a))
  {
    match a
    case SignUp(slug, email) =>
      NewOrgBase(s.t, slug, email);
      SeatsStayRight(s, SignedUp(s.t, slug, email));
    case Gate(_, _) =>
    case Look(request) => LookedSeat(s.t, s.open[request]);
    case Write(request) =>
      WrittenBase(s.t, s.open[request]);
      SeatsStayRight(s, Written(s.t, s.open[request]));
  }

  lemma SeatsStayRight(s: State, t': Tables)
    requires AllRight(s) && GoesOn(s.t, t')
    ensures forall r :: r in s.open ==> SeatRight(t', s.open[r])
  {
    forall r | r in s.open ensures SeatRight(t', s.open[r]) {
      SeatStaysRight(s.t, t', s.open[r]);
    }
  }

  lemma RunStaysRight(run: seq<State>, steps: seq<Step>, i: nat)
    requires IsRun(run, steps) && i < |run|
    ensures AllRight(run[i])
  {
    AlwaysInv([]);
    forall s, a, s' | AllRight(s) && Takes(s, a, s') ensures AllRight(s') {
      StepKeepsRight(s, a);
    }
    ChainKeeps(Takes, s => AllRight(s), run, steps, i);
  }

  /** Over any interleaving of the statements of any operations: every row's keys are there, emails
      and slugs are unique, nobody belongs to two orgs, and every group member belongs to the
      group's org. */
  lemma RunBase(run: seq<State>, steps: seq<Step>, i: nat)
    requires IsRun(run, steps) && i < |run|
    ensures Base(run[i].t)
  {
    RunStaysRight(run, steps, i);
  }

  /** One step of a run, with the tables it finds in order. */
  lemma StepOfRun(run: seq<State>, steps: seq<Step>, k: nat)
    requires IsRun(run, steps) && k < |steps|
    ensures Takes(run[k], steps[k], run[k + 1]) && AllRight(run[k])
  {
    assert Takes(run[k], steps[k], run[k + 1]);
    RunStaysRight(run, steps, k);
  }

  /** The step is a write of which `bad` is true. */
  predicate Writes(s: State, a: Step, bad: (Tables, Open) -> bool) {
    a.Write? && a.request in s.open && Ready(s.open[a.request]) && bad(s.t, s.open[a.request])
  }

  ghost predicate NeverWrites(run: seq<State>, steps: seq<Step>, n: nat, bad: (Tables, Open) -> bool)
    requires n <= |steps| && n <= |run|
  {
    forall k :: 0 <= k < n ==> !Writes(run[k], steps[k], bad)
  }

  // ---- at least one owner ------------------------------------------------------------

  /** A write that does not take ownership from whoever holds the grant leaves it. */
  lemma GrantStays(t: Tables, o: Open, g: Grant)
    requires KeysOk(t) && Ready(o) && g in t.roles && t.roles[g] == Owner
    requires HasTarget(o.op) && (g == Target(o.op) ==> !Ousts(o.op))
    ensures g in Written(t, o).roles && Written(t, o).roles[g] == Owner
  {
  }

  /** Whatever was read before, a write to a member leaves the org owned exactly if it does not take
      ownership from the only owner there is at the moment of writing. */
  lemma WriteLeavesOwnerIff(t: Tables, o: Open)
    requires KeysOk(t) && Ready(o) && HasTarget(o.op) && HasOwner(t, o.op.actor.org)
    ensures HasOwner(Written(t, o), o.op.actor.org) <==> !EndsOwnership(t, o)
  {
    var org := o.op.actor.org;
    if !EndsOwnership(t, o) {
      var g :| g in t.roles && g.org == org && t.roles[g] == Owner && (g != Target(o.op) || !Ousts(o.op));
      GrantStays(t, o, g);
      OwnerGrant(Written(t, o), g);
    }
  }

  /** Other orgs do not depend on it. */
  lemma WriteElsewhere(t: Tables, o: Open, org: OrgId)
    requires KeysOk(t) && Ready(o) && HasTarget(o.op) && org != o.op.actor.org && HasOwner(t, org)
    ensures HasOwner(Written(t, o), org)
  {
    var g :| g in t.roles && g.org == org && t.roles[g] == Owner;
    GrantStays(t, o, g);
    OwnerGrant(Written(t, o), g);
  }

  lemma TargetOwnedIff(t: Tables, o: Open)
    requires KeysOk(t) && Owned(t) && Ready(o) && HasTarget(o.op)
    ensures Owned(Written(t, o)) <==> !EndsOwnership(t, o)
  {
    forall org | org in t.orgs && org != o.op.actor.org ensures HasOwner(Written(t, o), org) {
      WriteElsewhere(t, o, org);
    }
    assert Written(t, o).orgs == t.orgs;
    if o.op.actor.org in t.orgs {
      WriteLeavesOwnerIff(t, o);
    }
  }

  lemma WriteOwnedIff(t: Tables, o: Open)
    requires Base(t) && Owned(t) && SeatRight(t, o) && Ready(o)
    ensures Owned(Written(t, o)) <==> !EndsOwnership(t, o)
  {
    if HasTarget(o.op) {
      TargetOwnedIff(t, o);
    } else if o.op.AddMember? {
      NewUserKeepsOwned(t, o.op.actor.org, o.op.email, o.op.role);
    } else if o.op.DeleteOrg? {
      OrgGoneOwned(t, o.op.actor.org, o.stage.ids);
    } else {
      GroupWriteBase(t, o);
      GroupsOwned(t, Written(t, o));
    }
  }

  lemma StepOwnedIff(s: State, a: Step)
    requires AllRight(s) && Owned(s.t) && Enabled(s, a)
    ensures Owned(After(s, a).t) <==> !Writes(s, a, EndsOwnership)
  {
    if a.Write? {
      WriteOwnedIff(s.t, s.open[a.request]);
    } else if a.SignUp? {
      NewOrgBase(s.t, a.slug, a.email);
      NewOrgOwned(s.t, a.slug, a.email);
    }
  }

  lemma {:induction false} OwnedSoFar(run: seq<State>, steps: seq<Step>, i: nat)
    requires IsRun(run, steps) && i < |run| && NeverWrites(run, steps, i, EndsOwnership)
    ensures Owned(run[i].t)
  {
    if i == 0 {
      AlwaysInv([]);
    } else {
      OwnedSoFar(run, steps, i - 1);
      StepOfRun(run, steps, i - 1);
      StepOwnedIff(run[i - 1], steps[i - 1]);
    }
  }

  /** Over any interleaving of the statements of any operations, every org has an owner at every
      moment if and only if no write ever finds that its target has become the only owner. */
  lemma AlwaysOwnedIff(run: seq<State>, steps: seq<Step>)
    requires IsRun(run, steps)
    ensures (forall i :: 0 <= i < |run| ==> Owned(run[i].t)) <==> NeverWrites(run, steps, |steps|, EndsOwnership)
  {
    if forall i :: 0 <= i < |run| ==> Owned(run[i].t) {
      forall k | 0 <= k < |steps| ensures !Writes(run[k], steps[k], EndsOwnership) {
        StepOfRun(run, steps, k);
        assert Owned(run[k].t) && Owned(run[k + 1].t);
        StepOwnedIff(run[k], steps[k]);
      }
    }
    if NeverWrites(run, steps, |steps|, EndsOwnership) {
      forall i | 0 <= i < |run| ensures Owned(run[i].t) {
        OwnedSoFar(run, steps, i);
      }
    }
  }

  // ---- a membership for everyone -----------------------------------------------------

  lemma RemovedPlaced(t: Tables, grant: Grant)
    requires Base(t) && Placed(t)
    ensures Placed(Purged(Without(t, grant), {grant.user}))
  {
    if grant in t.roles {
      RemovePlaced(t, grant);
    } else {
      RemoveAgain(t, grant);
      forall u | u in Purged(t, {grant.user}).users ensures HasGrant(Purged(t, {grant.user}), u) {
        StillGranted(t, Purged(t, {grant.user}), u);
      }
    }
  }

  lemma WritePlacedIff(t: Tables, o: Open)
    requires Base(t) && Placed(t) && SeatRight(t, o) && Ready(o)
    ensures Placed(Written(t, o)) <==> !Strands(t, o)
  {
    if o.op.AddMember? {
      NewUserPlaced(t, o.op.actor.org, o.op.email, o.op.role);
    } else if o.op.SetMemberRole? {
      SetRolePlaced(t, Target(o.op), o.op.role);
    } else if o.op.RemoveMember? {
      RemovedPlaced(t, Target(o.op));
    } else if o.op.DeleteOrg? {
      OrgGonePlacedIff(t, o.op.actor.org, o.stage.ids);
    } else {
      GroupWriteBase(t, o);
      GroupsPlaced(t, Written(t, o));
    }
  }

  lemma StepPlacedIff(s: State, a: Step)
    requires AllRight(s) && Placed(s.t) && Enabled(s, a)
    ensures Placed(After(s, a).t) <==> !Writes(s, a, Strands)
  {
    if a.Write? {
      WritePlacedIff(s.t, s.open[a.request]);
    } else if a.SignUp? {
      NewOrgPlaced(s.t, a.slug);
      NewUserPlaced(NewOrg(s.t, a.slug), s.t.nextId, a.email, Owner);
    }
  }

  lemma {:induction false} PlacedSoFar(run: seq<State>, steps: seq<Step>, i: nat)
    requires IsRun(run, steps) && i < |run| && NeverWrites(run, steps, i, Strands)
    ensures Placed(run[i].t)
  {
    if i == 0 {
      AlwaysInv([]);
    } else {
      PlacedSoFar(run, steps, i - 1);
      StepOfRun(run, steps, i - 1);
      StepPlacedIff(run[i - 1], steps[i - 1]);
    }
  }

  /** Over any interleaving, every user has a membership at every moment if and only if no deletion
      of an org finds a member that it has not listed. */
  lemma AlwaysPlacedIff(run: seq<State>, steps: seq<Step>)
    requires IsRun(run, steps)
    ensures (forall i :: 0 <= i < |run| ==> Placed(run[i].t)) <==> NeverWrites(run, steps, |steps|, Strands)
  {
    if forall i :: 0 <= i < |run| ==> Placed(run[i].t) {
      forall k | 0 <= k < |steps| ensures !Writes(run[k], steps[k], Strands) {
        StepOfRun(run, steps, k);
        assert Placed(run[k].t) && Placed(run[k + 1].t);
        StepPlacedIff(run[k], steps[k]);
      }
    }
    if NeverWrites(run, steps, |steps|, Strands) {
      forall i | 0 <= i < |run| ensures Placed(run[i].t) {
        PlacedSoFar(run, steps, i);
      }
    }
  }

  // ---- who makes owners --------------------------------------------------------------

  /** An org that was there before gains an owner only by a write for one who owns it now. */
  ghost predicate OwnersByOwners(s: State, a: Step)
    requires Enabled(s, a)
  {
    forall g: Grant :: g.org in s.t.orgs && g.user in Owners(After(s, a).t, g.org) && g.user !in Owners(s.t, g.org)
                       ==> OwnerWrites(s, a, g.org)
  }

  predicate OwnerWrites(s: State, a: Step, org: OrgId) {
    && a.Write? && a.request in s.open
    && var actor := s.open[a.request].op.actor; actor.org == org && actor.user in Owners(s.t, org)
  }

  /** Which ownership a write makes. */
  lemma NewOwners(t: Tables, o: Open, g: Grant)
    requires KeysOk(t) && Ready(o) && g.user !in Owners(t, g.org) && g.user in Owners(Written(t, o), g.org)
    ensures MakesOwner(t, o) && g.org == o.op.actor.org
  {
    OwnersHold(t, g);
    OwnersHold(Written(t, o), g);
    NewOwnership(t, o, g);
  }

  lemma NewOwnership(t: Tables, o: Open, g: Grant)
    requires KeysOk(t) && Ready(o) && !(g in t.roles && t.roles[g] == Owner)
    requires g in Written(t, o).roles && Written(t, o).roles[g] == Owner
    ensures MakesOwner(t, o) && g.org == o.op.actor.org
  {
  }

  /** The one who becomes an owner. */
  function Promoted(t: Tables, o: Open): Grant {
    Grant(if o.op.SetMemberRole? then o.op.user else t.nextId, o.op.actor.org)
  }

  lemma MakesNewOwner(t: Tables, o: Open)
    requires KeysOk(t) && Ready(o) && MakesOwner(t, o)
    ensures var g := Promoted(t, o);
            g.org in t.orgs && g.user in Owners(Written(t, o), g.org) && g.user !in Owners(t, g.org)
  {
    OwnersHold(t, Promoted(t, o));
    OwnersHold(Written(t, o), Promoted(t, o));
  }

  lemma SignUpOwners(t: Tables, slug: string, email: string, g: Grant)
    requires KeysOk(t) && g.org in t.orgs && g.user !in Owners(t, g.org)
    ensures g.user !in Owners(SignedUp(t, slug, email), g.org)
  {
    OwnersHold(t, g);
    OwnersHold(SignedUp(t, slug, email), g);
  }

  /** One step keeps the rule exactly if it is no such write. */
  lemma OwnersByOwnersIff(s: State, a: Step)
    requires KeysOk(s.t) && Enabled(s, a)
    ensures OwnersByOwners(s, a) <==> !Writes(s, a, StalePromotion)
  {
    if Writes(s, a, StalePromotion) {
      MakesNewOwner(s.t, s.open[a.request]);
      assert !OwnerWrites(s, a, Promoted(s.t, s.open[a.request]).org);
    } else {
      forall g: Grant | g.org in s.t.orgs && g.user in Owners(After(s, a).t, g.org) && g.user !in Owners(s.t, g.org)
        ensures OwnerWrites(s, a, g.org)
      {
        if a.Write? {
          NewOwners(s.t, s.open[a.request], g);
        } else if a.SignUp? {
          SignUpOwners(s.t, a.slug, a.email, g);
        }
      }
    }
  }

  /** Over any interleaving of the statements of any operations, orgs gain owners only by those who
      own them at that moment if and only if nothing that makes an owner is written for someone who
      no longer is one. */
  lemma OnlyOwnersMakeOwnersIff(run: seq<State>, steps: seq<Step>)
    requires IsRun(run, steps)
    ensures (forall k :: 0 <= k < |steps| ==> Takes(run[k], steps[k], run[k + 1]) && OwnersByOwners(run[k], steps[k]))
            <==> NeverWrites(run, steps, |steps|, StalePromotion)
  {
    forall k | 0 <= k < |steps|
      ensures Takes(run[k], steps[k], run[k + 1])
      ensures OwnersByOwners(run[k], steps[k]) <==> !Writes(run[k], steps[k], StalePromotion)
    {
      StepOfRun(run, steps, k);
      OwnersByOwnersIff(run[k], steps[k]);
    }
  }
}
