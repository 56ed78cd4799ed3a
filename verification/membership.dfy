/** Orgs, users, memberships and groups (knowledge_desk/accounts.py:30-92, 218-269,
    knowledge_desk/tenancy.py:46-62, 73-229, knowledge_desk/main.py:160-164, 330-335). Each
    operation is one step, and the acting user's role is the one the session resolves to. */
module Membership {
  import opened Text

  type OrgId = nat
  type UserId = nat
  type GroupId = nat

  datatype Role = Member | Admin | Owner

  function Rank(r: Role): nat {
    match r
    case Member => 1
    case Admin => 2
    case Owner => 3
  }

  datatype Grant = Grant(user: UserId, org: OrgId)

  datatype Group = Group(org: OrgId, name: string)

  datatype Seat = Seat(group: GroupId, user: UserId)

  /** The tables. The unique index on user and org makes memberships a map. */
  datatype Tables = Tables(
    orgs: map<OrgId, string>, users: map<UserId, string>, roles: map<Grant, Role>,
    groups: map<GroupId, Group>, seats: set<Seat>, nextId: nat)

  datatype Outcome = Done | NoSession | Forbidden | NotFound | Conflict

  datatype Result = Result(tables: Tables, outcome: Outcome)

  /** The acting user and org of a session. */
  datatype Actor = Actor(user: UserId, org: OrgId)

  datatype Op =
    | CreateOrgWithOwner(slug: string, email: string)
    | AddMember(actor: Actor, email: string, role: Role)
    | SetMemberRole(actor: Actor, user: UserId, role: Role)
    | RemoveMember(actor: Actor, user: UserId)
    | CreateGroup(actor: Actor, name: string)
    | DeleteGroup(actor: Actor, group: GroupId)
    | AddGroupMember(actor: Actor, group: GroupId, user: UserId)
    | RemoveGroupMember(actor: Actor, group: GroupId, user: UserId)
    | DeleteOrg(actor: Actor)

  // ---- reading -----------------------------------------------------------------------

  predicate EmailTaken(t: Tables, email: string) {
    exists u :: u in t.users && t.users[u] == email
  }

  predicate SlugTaken(t: Tables, slug: string) {
    exists o :: o in t.orgs && t.orgs[o] == slug
  }

  function Owners(t: Tables, org: OrgId): set<UserId> {
    set g | g in t.roles && g.org == org && t.roles[g] == Owner :: g.user
  }

  function MembersOf(t: Tables, org: OrgId): set<UserId> {
    set g | g in t.roles && g.org == org :: g.user
  }

  /** The role a session acts with, if it resolves. */
  function RoleOf(t: Tables, a: Actor): Option<Role> {
    if Grant(a.user, a.org) in t.roles then Some(t.roles[Grant(a.user, a.org)]) else None
  }

  /** `require_role`, behind the session. */
  function Require(t: Tables, a: Actor, least: Role): Outcome {
    var role := RoleOf(t, a);
    if role.None? then NoSession
    else if Rank(role.value) < Rank(least) then Forbidden
    else Done
  }

  /** `require_can_grant` */
  function RequireCanGrant(t: Tables, a: Actor, role: Role): Outcome {
    if Require(t, a, Admin) != Done then Require(t, a, Admin) else Require(t, a, role)
  }

  predicate LastOwner(t: Tables, org: OrgId) {
    |Owners(t, org)| == 1
  }

  predicate OwnGroup(t: Tables, a: Actor, group: GroupId) {
    group in t.groups && t.groups[group].org == a.org
  }

  // ---- writing -----------------------------------------------------------------------

  /** Deletes the users among `ids` that no membership reaches, and with them their seats. */
  function Purged(t: Tables, ids: set<UserId>): Tables {
    var stranded := set u | u in ids && u in t.users && forall g :: g in t.roles ==> g.user != u;
    t.(users := t.users - stranded, seats := set s | s in t.seats && s.user !in stranded)
  }

  function Without(t: Tables, grant: Grant): Tables {
    t.(roles := t.roles - {grant})
  }

  function GroupDeleted(t: Tables, group: GroupId): Tables {
    t.(groups := t.groups - {group}, seats := set s | s in t.seats && s.group != group)
  }

  /** The cascade from an org's row. */
  function OrgDeleted(t: Tables, org: OrgId): Tables {
    t.(orgs := t.orgs - {org},
       roles := map g | g in t.roles && g.org != org :: t.roles[g],
       groups := map g | g in t.groups && t.groups[g].org != org :: t.groups[g],
       seats := set s | s in t.seats && (s.group in t.groups ==> t.groups[s.group].org != org))
  }

  /** The org is deleted, and of the users `ids` those it leaves without a membership. */
  function OrgGone(t: Tables, org: OrgId, ids: set<UserId>): Tables {
    Purged(OrgDeleted(t, org), ids)
  }

  function WithRole(t: Tables, grant: Grant, role: Role): Tables {
    t.(roles := t.roles[grant := role])
  }

  function WithGroup(t: Tables, org: OrgId, name: string): Tables {
    t.(groups := t.groups[t.nextId := Group(org, name)], nextId := t.nextId + 1)
  }

  function WithSeat(t: Tables, seat: Seat): Tables {
    t.(seats := t.seats + {seat})
  }

  function WithoutSeat(t: Tables, seat: Seat): Tables {
    t.(seats := t.seats - {seat})
  }

  function WithUser(t: Tables, org: OrgId, email: string, role: Role): Tables {
    t.(users := t.users[t.nextId := email], roles := t.roles[Grant(t.nextId, org) := role], nextId := t.nextId + 1)
  }

  /** The row of an org, before its first owner. */
  function NewOrg(t: Tables, slug: string): Tables {
    t.(orgs := t.orgs[t.nextId := slug], nextId := t.nextId + 1)
  }

  /** The tables of a sign-up that goes through. */
  function SignedUp(t: Tables, slug: string, email: string): Tables {
    WithUser(NewOrg(t, slug), t.nextId, email, Owner)
  }

  /** One operation. What is refused changes nothing. */
  function Apply(t: Tables, op: Op): Result {
    match op
    case CreateOrgWithOwner(slug, email) =>
      if SlugTaken(t, slug) || EmailTaken(t, email) then Result(t, Conflict)
      else
        Result(SignedUp(t, slug, email), Done)
    case AddMember(a, email, role) =>
      var gate := RequireCanGrant(t, a, role);
      if gate != Done then Result(t, gate)
      else if EmailTaken(t, email) then Result(t, Conflict)
      else Result(WithUser(t, a.org, email, role), Done)
    case SetMemberRole(a, user, role) =>
      var gate := RequireCanGrant(t, a, role);
      var grant := Grant(user, a.org);
      if gate != Done then Result(t, gate)
      else if user == a.user then Result(t, Forbidden)
      else if grant !in t.roles then Result(t, NotFound)
      else if t.roles[grant] == Owner && role != Owner && LastOwner(t, a.org) then Result(t, Forbidden)
      else Result(WithRole(t, grant, role), Done)
    case RemoveMember(a, user) =>
      var gate := Require(t, a, Admin);
      var grant := Grant(user, a.org);
      if gate != Done then Result(t, gate)
      else if user == a.user then Result(t, Forbidden)
      else if grant !in t.roles then Result(t, NotFound)
      else if t.roles[grant] == Owner && LastOwner(t, a.org) then Result(t, Forbidden)
      else Result(Purged(Without(t, grant), {user}), Done)
    case CreateGroup(a, name) =>
      var gate := Require(t, a, Admin);
      if gate != Done then Result(t, gate)
      else if Group(a.org, name) in t.groups.Values then Result(t, Conflict)
      else Result(WithGroup(t, a.org, name), Done)
    case DeleteGroup(a, group) =>
      var gate := Require(t, a, Admin);
      if gate != Done then Result(t, gate)
      else if !OwnGroup(t, a, group) then Result(t, NotFound)
      else Result(GroupDeleted(t, group), Done)
    case AddGroupMember(a, group, user) =>
      var gate := Require(t, a, Admin);
      if gate != Done then Result(t, gate)
      else if !OwnGroup(t, a, group) || Grant(user, a.org) !in t.roles then Result(t, NotFound)
      else Result(WithSeat(t, Seat(group, user)), Done)
    case RemoveGroupMember(a, group, user) =>
      var gate := Require(t, a, Admin);
      if gate != Done then Result(t, gate)
      else if !OwnGroup(t, a, group) then Result(t, NotFound)
      else Result(WithoutSeat(t, Seat(group, user)), Done)
    case DeleteOrg(a) =>
      var gate := Require(t, a, Owner);
      if gate != Done then Result(t, gate)
      else Result(OrgGone(t, a.org, MembersOf(t, a.org)), Done)
  }

  // ---- the invariant -----------------------------------------------------------------

  ghost predicate KeysOk(t: Tables) {
    && (forall o :: o in t.orgs ==> o < t.nextId) && (forall u :: u in t.users ==> u < t.nextId)
    && (forall g :: g in t.groups ==> g < t.nextId && t.groups[g].org in t.orgs)
    && (forall g :: g in t.roles ==> g.user in t.users && g.org in t.orgs)
  }

  ghost predicate AtMostOneOrg(t: Tables) {
    forall g, h :: g in t.roles && h in t.roles && g.user == h.user ==> g == h
  }

  /** Every user has a membership. */
  ghost predicate Placed(t: Tables) {
    forall u :: u in t.users ==> HasGrant(t, u)
  }

  predicate HasGrant(t: Tables, u: UserId) {
    exists g :: g in t.roles && g.user == u
  }

  /** Every group member belongs to the group's org. */
  ghost predicate SeatsOk(t: Tables) {
    forall s :: s in t.seats ==> s.group in t.groups && Grant(s.user, t.groups[s.group].org) in t.roles
  }

  /** Every org has an owner. */
  ghost predicate Owned(t: Tables) {
    forall o :: o in t.orgs ==> HasOwner(t, o)
  }

  predicate HasOwner(t: Tables, org: OrgId) {
    exists g :: g in t.roles && g.org == org && t.roles[g] == Owner
  }

  /** No two accounts share an email, and no two orgs a slug. */
  ghost predicate NamesOk(t: Tables) {
    && (forall u, v :: u in t.users && v in t.users && t.users[u] == t.users[v] ==> u == v)
    && (forall o, p :: o in t.orgs && p in t.orgs && t.orgs[o] == t.orgs[p] ==> o == p)
  }

  /** The tables are in order, whoever owns or belongs to what. */
  ghost predicate Base(t: Tables) {
    KeysOk(t) && AtMostOneOrg(t) && SeatsOk(t) && NamesOk(t)
  }

  ghost predicate Inv(t: Tables) {
    Base(t) && Placed(t) && Owned(t)
  }

  // ---- small steps -------------------------------------------------------------------

  /** A grant of `t` is one of `t'`, with the same role. */
  predicate Kept(t: Tables, t': Tables, g: Grant) {
    g in t.roles ==> g in t'.roles && t'.roles[g] == t.roles[g]
  }

  lemma StillGranted(t: Tables, t': Tables, u: UserId)
    requires HasGrant(t, u) && forall g :: g in t.roles && g.user == u ==> g in t'.roles
    ensures HasGrant(t', u)
  {
    var g :| g in t.roles && g.user == u;
    assert g in t'.roles;
  }

  lemma StillOwned(t: Tables, t': Tables, org: OrgId)
    requires HasOwner(t, org) && forall g :: g in t.roles && g.org == org ==> Kept(t, t', g)
    ensures HasOwner(t', org)
  {
    var g :| g in t.roles && g.org == org && t.roles[g] == Owner;
    assert Kept(t, t', g);
  }

  lemma OwnerGrant(t: Tables, g: Grant)
    requires g in t.roles && t.roles[g] == Owner
    ensures HasOwner(t, g.org)
  {
  }

  // ---- a new user --------------------------------------------------------------------

  lemma NewUserKeys(t: Tables, org: OrgId, email: string, role: Role)
    requires KeysOk(t) && NamesOk(t) && org in t.orgs && !EmailTaken(t, email)
    ensures KeysOk(WithUser(t, org, email, role)) && NamesOk(WithUser(t, org, email, role))
  {
  }

  lemma NewUserOnce(t: Tables, org: OrgId, email: string, role: Role)
    requires KeysOk(t) && AtMostOneOrg(t)
    ensures AtMostOneOrg(WithUser(t, org, email, role))
  {
    assert forall g :: g in t.roles ==> g.user < t.nextId;
  }

  lemma NewUserSeats(t: Tables, org: OrgId, email: string, role: Role)
    requires SeatsOk(t)
    ensures SeatsOk(WithUser(t, org, email, role))
  {
  }

  lemma NewUserBase(t: Tables, org: OrgId, email: string, role: Role)
    requires Base(t) && org in t.orgs && !EmailTaken(t, email)
    ensures Base(WithUser(t, org, email, role))
  {
    NewUserKeys(t, org, email, role);
    NewUserOnce(t, org, email, role);
    NewUserSeats(t, org, email, role);
  }

  lemma NewUserPlaced(t: Tables, org: OrgId, email: string, role: Role)
    requires Placed(t)
    ensures Placed(WithUser(t, org, email, role))
  {
    var t' := WithUser(t, org, email, role);
    forall u | u in t'.users ensures HasGrant(t', u) {
      if u == t.nextId {
        assert Grant(u, org) in t'.roles;
      } else {
        StillGranted(t, t', u);
      }
    }
  }

  lemma NewUserOwned(t: Tables, org: OrgId, email: string, role: Role, o: OrgId)
    requires KeysOk(t) && (HasOwner(t, o) || (o == org && role == Owner))
    ensures HasOwner(WithUser(t, org, email, role), o)
  {
    var t' := WithUser(t, org, email, role);
    if HasOwner(t, o) {
      assert Grant(t.nextId, org) !in t.roles;
      assert forall g :: Kept(t, t', g);
      StillOwned(t, t', o);
    } else {
      OwnerGrant(t', Grant(t.nextId, org));
    }
  }

  lemma NewUserKeepsOwned(t: Tables, org: OrgId, email: string, role: Role)
    requires KeysOk(t) && Owned(t)
    ensures Owned(WithUser(t, org, email, role))
  {
    forall o | o in t.orgs ensures HasOwner(WithUser(t, org, email, role), o) {
      NewUserOwned(t, org, email, role, o);
    }
  }

  lemma NewUserKeeps(t: Tables, org: OrgId, email: string, role: Role)
    requires Inv(t) && org in t.orgs && !EmailTaken(t, email)
    ensures Inv(WithUser(t, org, email, role))
  {
    NewUserBase(t, org, email, role);
    NewUserPlaced(t, org, email, role);
    NewUserKeepsOwned(t, org, email, role);
  }

  lemma NewOrgKeys(t: Tables, slug: string)
    requires KeysOk(t) && SeatsOk(t) && NamesOk(t) && !SlugTaken(t, slug)
    ensures KeysOk(NewOrg(t, slug)) && SeatsOk(NewOrg(t, slug)) && NamesOk(NewOrg(t, slug))
  {
  }

  lemma NewOrgPlaced(t: Tables, slug: string)
    requires Placed(t)
    ensures Placed(NewOrg(t, slug))
  {
    forall u | u in t.users ensures HasGrant(NewOrg(t, slug), u) {
      StillGranted(t, NewOrg(t, slug), u);
    }
  }

  lemma NewOrgOwned(t: Tables, slug: string, email: string)
    requires KeysOk(NewOrg(t, slug)) && Owned(t)
    ensures Owned(WithUser(NewOrg(t, slug), t.nextId, email, Owner))
  {
    var t1 := NewOrg(t, slug);
    forall o | o in t1.orgs ensures HasOwner(WithUser(t1, t.nextId, email, Owner), o) {
      if o != t.nextId {
        StillOwned(t, t1, o);
      }
      NewUserOwned(t1, t.nextId, email, Owner, o);
    }
  }

  lemma NewOrgBase(t: Tables, slug: string, email: string)
    requires Base(t) && !SlugTaken(t, slug) && !EmailTaken(t, email)
    ensures KeysOk(NewOrg(t, slug)) && Base(WithUser(NewOrg(t, slug), t.nextId, email, Owner))
  {
    NewOrgKeys(t, slug);
    NewUserBase(NewOrg(t, slug), t.nextId, email, Owner);
  }

  lemma NewOrgKeeps(t: Tables, slug: string, email: string)
    requires Inv(t) && !SlugTaken(t, slug) && !EmailTaken(t, email)
    ensures Inv(SignedUp(t, slug, email))
  {
    NewOrgBase(t, slug, email);
    NewOrgPlaced(t, slug);
    NewUserPlaced(NewOrg(t, slug), t.nextId, email, Owner);
    NewOrgOwned(t, slug, email);
  }

  // ---- roles and removals ------------------------------------------------------------

  /** Unless it was the last owner's, an org has an owner without this grant. */
  lemma AnotherOwner(t: Tables, grant: Grant) returns (g: Grant)
    requires HasOwner(t, grant.org) && grant in t.roles
    requires t.roles[grant] == Owner ==> !LastOwner(t, grant.org)
    ensures g in t.roles && g.org == grant.org && t.roles[g] == Owner && g != grant
  {
    if t.roles[grant] == Owner {
      assert grant.user in Owners(t, grant.org);
      var u := Another(Owners(t, grant.org), grant.user);
      g :| g in t.roles && g.org == grant.org && t.roles[g] == Owner && g.user == u;
    } else {
      g :| g in t.roles && g.org == grant.org && t.roles[g] == Owner;
    }
  }

  lemma Another(s: set<UserId>, x: UserId) returns (y: UserId)
    requires x in s && |s| != 1
    ensures y in s && y != x
  {
    assert |s - {x}| == |s| - 1;
    y :| y in s - {x};
  }

  lemma SetRoleOwned(t: Tables, grant: Grant, role: Role, o: OrgId)
    requires HasOwner(t, o) && grant in t.roles
    requires t.roles[grant] == Owner && role != Owner ==> !LastOwner(t, grant.org)
    ensures HasOwner(WithRole(t, grant, role), o)
  {
    var t' := WithRole(t, grant, role);
    if o != grant.org {
      StillOwned(t, t', o);
    } else if role == Owner {
      OwnerGrant(t', grant);
    } else {
      var g := AnotherOwner(t, grant);
      OwnerGrant(t', g);
    }
  }

  lemma SetRoleBase(t: Tables, grant: Grant, role: Role)
    requires Base(t) && grant in t.roles
    ensures Base(WithRole(t, grant, role))
  {
    assert WithRole(t, grant, role).roles.Keys == t.roles.Keys;
  }

  lemma SetRolePlaced(t: Tables, grant: Grant, role: Role)
    requires Placed(t)
    ensures Placed(WithRole(t, grant, role))
  {
    forall u | u in t.users ensures HasGrant(WithRole(t, grant, role), u) {
      StillGranted(t, WithRole(t, grant, role), u);
    }
  }

  lemma SetRoleKeeps(t: Tables, grant: Grant, role: Role)
    requires Inv(t) && grant in t.roles && (t.roles[grant] == Owner && role != Owner ==> !LastOwner(t, grant.org))
    ensures Inv(WithRole(t, grant, role))
  {
    SetRoleBase(t, grant, role);
    SetRolePlaced(t, grant, role);
    forall o | o in t.orgs ensures HasOwner(WithRole(t, grant, role), o) {
      SetRoleOwned(t, grant, role, o);
    }
  }

  /** The removed member had no other org, so the account goes, and with it every seat. */
  lemma RemovedTables(t: Tables, grant: Grant)
    requires KeysOk(t) && AtMostOneOrg(t) && grant in t.roles
    ensures Purged(Without(t, grant), {grant.user})
            == t.(roles := t.roles - {grant}, users := t.users - {grant.user},
                  seats := set s | s in t.seats && s.user != grant.user)
    ensures forall g :: g in t.roles && g != grant ==> g.user != grant.user
  {
    assert forall g :: g in Without(t, grant).roles ==> g in t.roles && g != grant && g.user != grant.user;
  }

  lemma RemoveBase(t: Tables, grant: Grant)
    requires Base(t) && grant in t.roles
    ensures Base(Purged(Without(t, grant), {grant.user}))
  {
    RemovedTables(t, grant);
  }

  lemma RemovePlaced(t: Tables, grant: Grant)
    requires KeysOk(t) && AtMostOneOrg(t) && Placed(t) && grant in t.roles
    ensures Placed(Purged(Without(t, grant), {grant.user}))
  {
    var t' := Purged(Without(t, grant), {grant.user});
    RemovedTables(t, grant);
    forall u | u in t'.users ensures HasGrant(t', u) {
      StillGranted(t, t', u);
    }
  }

  lemma RemoveOwned(t: Tables, grant: Grant, o: OrgId)
    requires HasOwner(t, o) && grant in t.roles && (t.roles[grant] == Owner ==> !LastOwner(t, grant.org))
    ensures HasOwner(Without(t, grant), o)
  {
    if o != grant.org {
      StillOwned(t, Without(t, grant), o);
    } else {
      var g := AnotherOwner(t, grant);
      OwnerGrant(Without(t, grant), g);
    }
  }

  lemma RemoveKeeps(t: Tables, grant: Grant)
    requires Inv(t) && grant in t.roles && (t.roles[grant] == Owner ==> !LastOwner(t, grant.org))
    ensures Inv(Purged(Without(t, grant), {grant.user}))
    ensures grant.user !in Purged(Without(t, grant), {grant.user}).users
  {
    var t' := Purged(Without(t, grant), {grant.user});
    RemoveBase(t, grant);
    RemovePlaced(t, grant);
    RemovedTables(t, grant);
    forall o | o in t'.orgs ensures HasOwner(t', o) {
      RemoveOwned(t, grant, o);
      StillOwned(Without(t, grant), t', o);
    }
  }

  // ---- the end of an org -------------------------------------------------------------

  /** Whom that takes: whoever of `ids` belongs to no other org. */
  lemma OrgGoneUsers(t: Tables, org: OrgId, ids: set<UserId>, u: UserId)
    requires AtMostOneOrg(t) && HasGrant(t, u) && u in t.users
    ensures u in OrgGone(t, org, ids).users <==> Grant(u, org) !in t.roles || u !in ids
  {
    var g :| g in t.roles && g.user == u;
    if Grant(u, org) in t.roles {
      assert forall h :: h in OrgDeleted(t, org).roles ==> h.user != u;
    } else {
      assert g in OrgDeleted(t, org).roles;
    }
  }

  /** Which users an org takes with it if all its members are named: those and nobody else. */
  lemma OrgTakes(t: Tables, org: OrgId)
    requires AtMostOneOrg(t) && Placed(t)
    ensures forall u :: u in OrgGone(t, org, MembersOf(t, org)).users <==> u in t.users && Grant(u, org) !in t.roles
  {
    forall u | u in t.users
      ensures u in OrgGone(t, org, MembersOf(t, org)).users <==> Grant(u, org) !in t.roles
    {
      assert HasGrant(t, u);
      OrgGoneUsers(t, org, MembersOf(t, org), u);
      assert Grant(u, org) in t.roles ==> u in MembersOf(t, org);
    }
  }

  /** Nobody outside `ids` belongs to the org. */
  predicate NamesAll(t: Tables, org: OrgId, ids: set<UserId>) {
    forall g :: g in t.roles && g.org == org ==> g.user in ids
  }

  /** An org's end leaves nobody without a membership exactly if all its members were named. */
  lemma OrgGonePlacedIff(t: Tables, org: OrgId, ids: set<UserId>)
    requires KeysOk(t) && AtMostOneOrg(t) && Placed(t)
    ensures Placed(OrgGone(t, org, ids)) <==> NamesAll(t, org, ids)
  {
    var t' := OrgGone(t, org, ids);
    assert t'.roles == OrgDeleted(t, org).roles;
    forall g | g in t.roles && g.org == org && g.user !in ids ensures g.user in t'.users && !HasGrant(t', g.user) {
      OrgGoneUsers(t, org, ids, g.user);
    }
    if NamesAll(t, org, ids) {
      forall u | u in t'.users ensures HasGrant(t', u) {
        assert HasGrant(t, u);
        OrgGoneUsers(t, org, ids, u);
        StillGranted(t, t', u);
      }
    }
  }

  lemma OrgGoneKeys(t: Tables, org: OrgId, ids: set<UserId>)
    requires KeysOk(t)
    ensures KeysOk(OrgGone(t, org, ids))
  {
    assert OrgGone(t, org, ids).roles == OrgDeleted(t, org).roles;
  }

  lemma OrgGoneSeats(t: Tables, org: OrgId, ids: set<UserId>)
    requires SeatsOk(t)
    ensures SeatsOk(OrgGone(t, org, ids))
  {
    var t' := OrgGone(t, org, ids);
    assert t'.groups == OrgDeleted(t, org).groups && t'.roles == OrgDeleted(t, org).roles;
    forall s | s in t'.seats ensures s.group in t'.groups && Grant(s.user, t'.groups[s.group].org) in t'.roles {
      assert s in OrgDeleted(t, org).seats && s in t.seats;
    }
  }

  lemma OrgGoneBase(t: Tables, org: OrgId, ids: set<UserId>)
    requires Base(t)
    ensures Base(OrgGone(t, org, ids))
  {
    OrgGoneKeys(t, org, ids);
    OrgGoneSeats(t, org, ids);
  }

  lemma OrgGoneOwned(t: Tables, org: OrgId, ids: set<UserId>)
    requires Owned(t)
    ensures Owned(OrgGone(t, org, ids))
  {
    var t' := OrgGone(t, org, ids);
    assert t'.orgs == OrgDeleted(t, org).orgs && t'.roles == OrgDeleted(t, org).roles;
    forall o | o in t'.orgs ensures HasOwner(t', o) {
      assert forall g :: g in t.roles && g.org == o ==> Kept(t, t', g);
      StillOwned(t, t', o);
    }
  }

  lemma DeleteOrgKeeps(t: Tables, org: OrgId)
    requires Inv(t)
    ensures Inv(OrgGone(t, org, MembersOf(t, org)))
  {
    var ids := MembersOf(t, org);
    assert NamesAll(t, org, ids);
    OrgGoneBase(t, org, ids);
    OrgGonePlacedIff(t, org, ids);
    OrgGoneOwned(t, org, ids);
  }

  // ---- groups ------------------------------------------------------------------------

  ghost predicate SameAccounts(t: Tables, t': Tables) {
    t'.orgs == t.orgs && t'.users == t.users && t'.roles == t.roles && t.nextId <= t'.nextId
  }

  lemma GroupsBase(t: Tables, t': Tables)
    requires Base(t) && SameAccounts(t, t') && SeatsOk(t')
    requires forall g :: g in t'.groups ==> g < t'.nextId && t'.groups[g].org in t.orgs
    ensures Base(t')
  {
  }

  lemma GroupsPlaced(t: Tables, t': Tables)
    requires Placed(t) && SameAccounts(t, t')
    ensures Placed(t')
  {
    forall u | u in t'.users ensures HasGrant(t', u) {
      assert HasGrant(t, u);
    }
  }

  lemma GroupsOwned(t: Tables, t': Tables)
    requires Owned(t) && SameAccounts(t, t')
    ensures Owned(t')
  {
    forall o | o in t'.orgs ensures HasOwner(t', o) {
      assert HasOwner(t, o);
    }
  }

  /** What the gates of an operation that goes through have checked. */
  lemma GateIs(t: Tables, op: Op)
    requires Apply(t, op).outcome == Done && !op.CreateOrgWithOwner?
    ensures Grant(op.actor.user, op.actor.org) in t.roles
    ensures op.AddMember? || op.SetMemberRole? ==> Rank(t.roles[Grant(op.actor.user, op.actor.org)]) >= Rank(op.role)
  {
  }

  /** What an operation that goes through has checked, and what it leaves. */
  lemma AddMemberDone(t: Tables, a: Actor, email: string, role: Role)
    requires Apply(t, AddMember(a, email, role)).outcome == Done
    ensures Grant(a.user, a.org) in t.roles && !EmailTaken(t, email)
    ensures Apply(t, AddMember(a, email, role)).tables == WithUser(t, a.org, email, role)
  {
  }

  lemma SetRoleDone(t: Tables, a: Actor, user: UserId, role: Role)
    requires Apply(t, SetMemberRole(a, user, role)).outcome == Done
    ensures user != a.user && Grant(user, a.org) in t.roles
    ensures t.roles[Grant(user, a.org)] == Owner && role != Owner ==> !LastOwner(t, a.org)
    ensures Apply(t, SetMemberRole(a, user, role)).tables == WithRole(t, Grant(user, a.org), role)
  {
  }

  lemma RemoveDone(t: Tables, a: Actor, user: UserId)
    requires Apply(t, RemoveMember(a, user)).outcome == Done
    ensures user != a.user && Grant(user, a.org) in t.roles
    ensures t.roles[Grant(user, a.org)] == Owner ==> !LastOwner(t, a.org)
    ensures Apply(t, RemoveMember(a, user)).tables == Purged(Without(t, Grant(user, a.org)), {user})
  {
  }

  lemma AddMemberKeeps(t: Tables, a: Actor, email: string, role: Role)
    requires Inv(t) && Apply(t, AddMember(a, email, role)).outcome == Done
    ensures Inv(Apply(t, AddMember(a, email, role)).tables)
  {
    AddMemberDone(t, a, email, role);
    NewUserKeeps(t, a.org, email, role);
  }

  lemma SetMemberRoleKeeps(t: Tables, a: Actor, user: UserId, role: Role)
    requires Inv(t) && Apply(t, SetMemberRole(a, user, role)).outcome == Done
    ensures Inv(Apply(t, SetMemberRole(a, user, role)).tables)
  {
    SetRoleDone(t, a, user, role);
    SetRoleKeeps(t, Grant(user, a.org), role);
  }

  lemma RemoveMemberKeeps(t: Tables, a: Actor, user: UserId)
    requires Inv(t) && Apply(t, RemoveMember(a, user)).outcome == Done
    ensures Inv(Apply(t, RemoveMember(a, user)).tables)
  {
    RemoveDone(t, a, user);
    RemoveKeeps(t, Grant(user, a.org));
  }

  lemma RefusedKeeps(t: Tables, op: Op)
    requires Apply(t, op).outcome != Done
    ensures Apply(t, op).tables == t
  {
  }

  lemma StepKeeps(t: Tables, op: Op)
    requires Inv(t)
    ensures Inv(Apply(t, op).tables)
  {
    if Apply(t, op).outcome != Done {
      RefusedKeeps(t, op);
    } else {
      match op
      case CreateOrgWithOwner(slug, email) => NewOrgKeeps(t, slug, email);
      case AddMember(a, email, role) => AddMemberKeeps(t, a, email, role);
      case SetMemberRole(a, user, role) => SetMemberRoleKeeps(t, a, user, role);
      case RemoveMember(a, user) => RemoveMemberKeeps(t, a, user);
      case DeleteOrg(a) => DeleteOrgKeeps(t, a.org);
      case _ => GroupStepKeeps(t, op);
    }
  }

  lemma GroupStepKeeps(t: Tables, op: Op)
    requires Inv(t) && (op.CreateGroup? || op.DeleteGroup? || op.AddGroupMember? || op.RemoveGroupMember?)
    ensures Inv(Apply(t, op).tables)
  {
    var t' := Apply(t, op).tables;
    GroupOpKeys(t, op);
    GroupOpSeats(t, op);
    GroupsBase(t, t');
    GroupsPlaced(t, t');
    GroupsOwned(t, t');
  }

  lemma GroupOpKeys(t: Tables, op: Op)
    requires KeysOk(t) && (op.CreateGroup? || op.DeleteGroup? || op.AddGroupMember? || op.RemoveGroupMember?)
    ensures var t' := Apply(t, op).tables;
            SameAccounts(t, t') && forall g :: g in t'.groups ==> g < t'.nextId && t'.groups[g].org in t.orgs
  {
  }

  lemma GroupOpSeats(t: Tables, op: Op)
    requires KeysOk(t) && SeatsOk(t)
    requires op.CreateGroup? || op.DeleteGroup? || op.AddGroupMember? || op.RemoveGroupMember?
    ensures SeatsOk(Apply(t, op).tables)
  {
  }

  /** The tables after a sequence of operations on an empty system. */
  function AfterOps(ops: seq<Op>): Tables {
    if ops == [] then Tables(map[], map[], map[], map[], {}, 0)
    else Apply(AfterOps(ops[..|ops| - 1]), ops[|ops| - 1]).tables
  }

  /** After any operations whatever: every user has exactly one membership, every group member
      belongs to the group's org, and every org has an owner. */
  lemma {:induction false} AlwaysInv(ops: seq<Op>)
    ensures Inv(AfterOps(ops))
    decreases |ops|
  {
    if ops != [] {
      AlwaysInv(ops[..|ops| - 1]);
      StepKeeps(AfterOps(ops[..|ops| - 1]), ops[|ops| - 1]);
    }
  }

  /** A grant of ownership in an org that was there before. */
  lemma NewOwnerGrant(t: Tables, op: Op, g: Grant)
    requires KeysOk(t) && g.org in t.orgs && !(g in t.roles && t.roles[g] == Owner)
    requires g in Apply(t, op).tables.roles && Apply(t, op).tables.roles[g] == Owner
    ensures (op.AddMember? || op.SetMemberRole?) && op.role == Owner && op.actor.org == g.org
    ensures Apply(t, op).outcome == Done
  {
  }

  /** An org that existed before gains an owner only in a step taken by one of its owners. */
  lemma OwnersGrowByOwners(t: Tables, op: Op, org: OrgId, user: UserId)
    requires KeysOk(t) && org in t.orgs
    requires user in Owners(Apply(t, op).tables, org) && user !in Owners(t, org)
    ensures (op.AddMember? || op.SetMemberRole?) && op.role == Owner && op.actor.org == org
    ensures op.actor.user in Owners(t, org)
  {
    var g := Grant(user, org);
    OwnersHold(t, g);
    OwnersHold(Apply(t, op).tables, g);
    NewOwnerGrant(t, op, g);
    GateIs(t, op);
    OwnersHold(t, Grant(op.actor.user, org));
  }

  lemma OwnersHold(t: Tables, g: Grant)
    ensures g.user in Owners(t, g.org) <==> g in t.roles && t.roles[g] == Owner
  {
    if g.user in Owners(t, g.org) {
      var h :| h in t.roles && h.org == g.org && t.roles[h] == Owner && h.user == g.user;
      assert h == g;
    }
  }

  /** Grants in other orgs are left alone. */
  lemma SameRoles(t: Tables, op: Op, g: Grant)
    requires !op.CreateOrgWithOwner? && op.actor.org != g.org
    ensures var t' := Apply(t, op).tables;
            (g in t.roles <==> g in t'.roles) && (g in t.roles ==> t'.roles[g] == t.roles[g])
  {
  }

  lemma SameGroups(t: Tables, op: Op, group: GroupId)
    requires KeysOk(t) && !op.CreateOrgWithOwner? && group in t.groups && op.actor.org != t.groups[group].org
    ensures var t' := Apply(t, op).tables; group in t'.groups && t'.groups[group] == t.groups[group]
  {
  }

  lemma SameUser(t: Tables, op: Op, g: Grant)
    requires KeysOk(t) && AtMostOneOrg(t) && Placed(t) && !op.CreateOrgWithOwner?
    requires g in t.roles && op.actor.org != g.org
    ensures var t' := Apply(t, op).tables; g.user in t'.users && t'.users[g.user] == t.users[g.user]
  {
    if Apply(t, op).outcome != Done {
      RefusedKeeps(t, op);
    } else if op.DeleteOrg? {
      OrgTakes(t, op.actor.org);
    } else if op.RemoveMember? {
      RemovedTables(t, Grant(op.user, op.actor.org));
    } else {
      UsersStay(t, op);
    }
  }

  lemma UsersStay(t: Tables, op: Op)
    requires KeysOk(t) && !op.CreateOrgWithOwner? && !op.DeleteOrg? && !op.RemoveMember?
    ensures forall u :: u in t.users ==> u in Apply(t, op).tables.users && Apply(t, op).tables.users[u] == t.users[u]
  {
  }

  /** Nothing an actor does reaches another org's memberships or groups, or the people in it. */
  lemma OtherOrgsUntouched(t: Tables, op: Op, org: OrgId, g: Grant, group: GroupId)
    requires Inv(t) && !op.CreateOrgWithOwner? && op.actor.org != org
    ensures var t' := Apply(t, op).tables;
            && (g.org == org ==>
                  (g in t.roles <==> g in t'.roles)
                  && (g in t.roles ==>
                        t'.roles[g] == t.roles[g] && g.user in t'.users && t'.users[g.user] == t.users[g.user]))
            && (group in t.groups && t.groups[group].org == org ==>
                  group in t'.groups && t'.groups[group] == t.groups[group])
  {
    if g.org == org {
      SameRoles(t, op, g);
      if g in t.roles {
        SameUser(t, op, g);
      }
    }
    if group in t.groups && t.groups[group].org == org {
      SameGroups(t, op, group);
    }
  }

  /** Removing a member frees the email: the account is gone and the address can sign up. */
  lemma RemovedEmailIsFree(t: Tables, op: Op)
    requires Inv(t) && op.RemoveMember? && Apply(t, op).outcome == Done
    ensures op.user in t.users && !EmailTaken(Apply(t, op).tables, t.users[op.user])
  {
    RemoveDone(t, op.actor, op.user);
    RemoveKeeps(t, Grant(op.user, op.actor.org));
  }

  // ---- two owners --------------------------------------------------------------------

  /** Two owners who remove each other, one after the other: either removal would go through,
      but behind the first the second has no session any more. */
  lemma SecondRemovalRefused(t: Tables, org: OrgId, a: UserId, b: UserId)
    requires a != b && Owners(t, org) == {a, b}
    ensures Apply(t, RemoveMember(Actor(a, org), b)).outcome == Done
    ensures Apply(t, RemoveMember(Actor(b, org), a)).outcome == Done
    ensures Apply(Apply(t, RemoveMember(Actor(a, org), b)).tables, RemoveMember(Actor(b, org), a)).outcome == NoSession
  {
    assert Owners(t, org) == {b, a};
    RemovalGoesThrough(t, org, a, b);
    RemovalGoesThrough(t, org, b, a);
  }

  lemma RemovalGoesThrough(t: Tables, org: OrgId, a: UserId, b: UserId)
    requires a != b && Owners(t, org) == {a, b}
    ensures Apply(t, RemoveMember(Actor(a, org), b)) == Result(Purged(Without(t, Grant(b, org)), {b}), Done)
    ensures Grant(b, org) !in Apply(t, RemoveMember(Actor(a, org), b)).tables.roles
  {
    OwnersAre(t, org, a, b);
    assert |{a, b}| == 2;
  }

  lemma OwnersAre(t: Tables, org: OrgId, a: UserId, b: UserId)
    requires Owners(t, org) == {a, b}
    ensures Grant(a, org) in t.roles && t.roles[Grant(a, org)] == Owner
    ensures Grant(b, org) in t.roles && t.roles[Grant(b, org)] == Owner
    ensures forall g :: g in t.roles && g.org == org && t.roles[g] == Owner ==> g == Grant(a, org) || g == Grant(b, org)
  {
    assert a in Owners(t, org) && b in Owners(t, org);
    forall g | g in t.roles && g.org == org && t.roles[g] == Owner ensures g == Grant(a, org) || g == Grant(b, org) {
      assert g.user in Owners(t, org);
    }
  }

  // ---- what the callers may rely on --------------------------------------------------

  /** The actor's session resolves, to a role of at least this rank. */
  predicate MayAct(t: Tables, a: Actor, least: Role) {
    RoleOf(t, a).Some? && Rank(RoleOf(t, a).value) >= Rank(least)
  }

  /** Every other membership is as it was. */
  ghost predicate OthersKept(t: Tables, t': Tables, grant: Grant) {
    forall g :: g != grant ==> Kept(t, t', g) && Kept(t', t, g)
  }

  /** Somebody else was given the role, by one who holds at least that, and an org that had an
      owner has one. */
  ghost predicate RoleIsSet(t: Tables, t': Tables, a: Actor, user: UserId, role: Role) {
    && user != a.user && MayAct(t, a, Admin) && MayAct(t, a, role)
    && RoleOf(t', Actor(user, a.org)) == Some(role) && OthersKept(t, t', Grant(user, a.org))
    && (HasOwner(t, a.org) ==> HasOwner(t', a.org))
  }

  /** Somebody else lost the membership, and, if the tables were in order, the account, every
      seat, and the hold on the email. */
  ghost predicate MemberIsGone(t: Tables, t': Tables, a: Actor, user: UserId) {
    && user != a.user && MayAct(t, a, Admin) && RoleOf(t, Actor(user, a.org)).Some?
    && RoleOf(t', Actor(user, a.org)).None? && OthersKept(t, t', Grant(user, a.org))
    && (HasOwner(t, a.org) ==> HasOwner(t', a.org))
    && (Inv(t) ==> AccountIsGone(t, t', user))
  }

  predicate AccountIsGone(t: Tables, t': Tables, user: UserId) {
    user in t.users && t'.users == t.users - {user} && t'.seats == set s | s in t.seats && s.user != user
  }

  /** The org is gone with its memberships and groups, other orgs keep theirs, and, if the
      tables were in order, exactly its members' accounts are gone with it. */
  ghost predicate OrgIsGone(t: Tables, t': Tables, org: OrgId) {
    && t'.orgs == t.orgs - {org}
    && (forall g :: g in t'.roles <==> g in t.roles && g.org != org)
    && (forall g :: g in t'.roles ==> t'.roles[g] == t.roles[g])
    && (forall g :: g in t'.groups <==> g in t.groups && t.groups[g].org != org)
    && (Inv(t) ==> forall u :: u in t'.users <==> u in t.users && Grant(u, org) !in t.roles)
  }

  lemma OwnerStays(t: Tables, t': Tables, grant: Grant)
    requires HasOwner(t, grant.org) && OthersKept(t, t', grant)
    requires grant in t.roles && (t.roles[grant] == Owner ==> !LastOwner(t, grant.org))
    ensures HasOwner(t', grant.org)
  {
    var g := AnotherOwner(t, grant);
    assert Kept(t, t', g);
    OwnerGrant(t', g);
  }

  lemma SetRoleFacts(t: Tables, a: Actor, user: UserId, role: Role)
    requires Apply(t, SetMemberRole(a, user, role)).outcome == Done
    ensures RoleIsSet(t, Apply(t, SetMemberRole(a, user, role)).tables, a, user, role)
  {
    var t', grant := Apply(t, SetMemberRole(a, user, role)).tables, Grant(user, a.org);
    SetRoleDone(t, a, user, role);
    GateIs(t, SetMemberRole(a, user, role));
    assert t' == WithRole(t, grant, role);
    if HasOwner(t, a.org) {
      SetRoleOwned(t, grant, role, a.org);
    }
  }

  lemma RemovedAccount(t: Tables, grant: Grant)
    requires grant in t.roles
    ensures Inv(t) ==> AccountIsGone(t, Purged(Without(t, grant), {grant.user}), grant.user)
  {
    if Inv(t) {
      RemovedTables(t, grant);
    }
  }

  lemma RemovedMembership(t: Tables, grant: Grant)
    requires grant in t.roles && (t.roles[grant] == Owner ==> !LastOwner(t, grant.org))
    ensures var t' := Purged(Without(t, grant), {grant.user});
            OthersKept(t, t', grant) && grant !in t'.roles && (HasOwner(t, grant.org) ==> HasOwner(t', grant.org))
  {
    var t' := Purged(Without(t, grant), {grant.user});
    assert t'.roles == t.roles - {grant};
    if HasOwner(t, grant.org) {
      OwnerStays(t, t', grant);
    }
  }

  lemma RemoveFacts(t: Tables, a: Actor, user: UserId)
    requires Apply(t, RemoveMember(a, user)).outcome == Done
    ensures MemberIsGone(t, Apply(t, RemoveMember(a, user)).tables, a, user)
  {
    RemoveDone(t, a, user);
    RemovedMembership(t, Grant(user, a.org));
    RemovedAccount(t, Grant(user, a.org));
  }

  lemma DeleteFacts(t: Tables, a: Actor)
    requires Apply(t, DeleteOrg(a)).outcome == Done
    ensures RoleOf(t, a) == Some(Owner) && OrgIsGone(t, Apply(t, DeleteOrg(a)).tables, a.org)
  {
    assert Apply(t, DeleteOrg(a)).tables == OrgGone(t, a.org, MembersOf(t, a.org));
    if Inv(t) {
      OrgTakes(t, a.org);
    }
  }

  lemma KeepsIf(t: Tables, op: Op)
    ensures Inv(t) ==> Inv(Apply(t, op).tables)
  {
    if Inv(t) {
      StepKeeps(t, op);
    }
  }

  // ---- the operations, statement by statement ----------------------------------------

  /** Each method does what its operation is specified to do, so `AlwaysInv` is about them. */
  class Directory {
    var t: Tables

    constructor ()
      ensures t == AfterOps([])
    {
      t := Tables(map[], map[], map[], map[], {}, 0);
    }

    /** A unique violation rolls the transaction back, the org's row included. */
    method CreateOrgWithOwner(slug: string, email: string) returns (outcome: Outcome, actor: Actor)
      modifies this
      ensures Result(t, outcome) == Apply(old(t), Op.CreateOrgWithOwner(slug, email))
      ensures outcome == Done ==> RoleOf(t, actor) == Some(Owner)
      ensures Inv(old(t)) ==> Inv(t)
    {
      KeepsIf(t, Op.CreateOrgWithOwner(slug, email));
      var before := t;
      actor := Actor(t.nextId + 1, t.nextId);
      if exists o :: o in t.orgs && t.orgs[o] == slug {
        return Conflict, actor;
      }
      t := NewOrg(t, slug);
      if exists u :: u in t.users && t.users[u] == email {
        t := before;
        return Conflict, actor;
      }
      t := t.(users := t.users[actor.user := email], nextId := t.nextId + 1);
      t := t.(roles := t.roles[Grant(actor.user, actor.org) := Owner]);
      outcome := Done;
    }

    /** The gate is the route's, the rest `add_member`. */
    method AddMember(a: Actor, email: string, role: Role) returns (outcome: Outcome, user: UserId)
      modifies this
      ensures Result(t, outcome) == Apply(old(t), Op.AddMember(a, email, role))
      ensures outcome == Done ==> RoleOf(t, Actor(user, a.org)) == Some(role)
      ensures Inv(old(t)) ==> Inv(t)
      ensures outcome == Done ==> MayAct(old(t), a, Admin) && MayAct(old(t), a, role) && !EmailTaken(old(t), email)
    {
      KeepsIf(t, Op.AddMember(a, email, role));
      user := t.nextId;
      outcome := RequireCanGrant(t, a, role);
      if outcome != Done {
        return;
      }
      if exists u :: u in t.users && t.users[u] == email {
        return Conflict, user;
      }
      t := t.(users := t.users[user := email], nextId := t.nextId + 1);
      t := t.(roles := t.roles[Grant(user, a.org) := role]);
    }

    method SetMemberRole(a: Actor, user: UserId, role: Role) returns (outcome: Outcome)
      modifies this
      ensures Result(t, outcome) == Apply(old(t), Op.SetMemberRole(a, user, role))
      ensures Inv(old(t)) ==> Inv(t)
      ensures outcome == Done ==> RoleIsSet(old(t), t, a, user, role)
    {
      KeepsIf(t, Op.SetMemberRole(a, user, role));
      if Apply(t, Op.SetMemberRole(a, user, role)).outcome == Done {
        SetRoleFacts(t, a, user, role);
      }
      outcome := RequireCanGrant(t, a, role);
      if outcome != Done {
        return;
      }
      if user == a.user {
        return Forbidden;
      }
      var grant := Grant(user, a.org);
      if grant !in t.roles {
        return NotFound;
      }
      if t.roles[grant] == Owner && role != Owner && |Owners(t, a.org)| == 1 {
        return Forbidden;
      }
      t := t.(roles := t.roles[grant := role]);
    }

    method RemoveMember(a: Actor, user: UserId) returns (outcome: Outcome)
      modifies this
      ensures Result(t, outcome) == Apply(old(t), Op.RemoveMember(a, user))
      ensures Inv(old(t)) ==> Inv(t)
      ensures outcome == Done ==> MemberIsGone(old(t), t, a, user)
    {
      KeepsIf(t, Op.RemoveMember(a, user));
      if Apply(t, Op.RemoveMember(a, user)).outcome == Done {
        RemoveFacts(t, a, user);
      }
      outcome := Require(t, a, Admin);
      if outcome != Done {
        return;
      }
      if user == a.user {
        return Forbidden;
      }
      var grant := Grant(user, a.org);
      if grant !in t.roles {
        return NotFound;
      }
      if t.roles[grant] == Owner && |Owners(t, a.org)| == 1 {
        return Forbidden;
      }
      t := t.(roles := t.roles - {grant});
      PurgeStrandedUsers({user});
    }

    /** Owner only; takes the org's members with it. */
    method DeleteOrg(a: Actor) returns (outcome: Outcome)
      modifies this
      ensures Result(t, outcome) == Apply(old(t), Op.DeleteOrg(a))
      ensures Inv(old(t)) ==> Inv(t)
      ensures outcome == Done ==> RoleOf(old(t), a) == Some(Owner) && OrgIsGone(old(t), t, a.org)
    {
      KeepsIf(t, Op.DeleteOrg(a));
      if Apply(t, Op.DeleteOrg(a)).outcome == Done {
        DeleteFacts(t, a);
      }
      outcome := Require(t, a, Owner);
      if outcome != Done {
        return;
      }
      var members := MembersOf(t, a.org);
      t := OrgDeleted(t, a.org);
      PurgeStrandedUsers(members);
    }

    method PurgeStrandedUsers(ids: set<UserId>)
      modifies this
      ensures t == Purged(old(t), ids)
    {
      t := Purged(t, ids);
    }
  }
}
