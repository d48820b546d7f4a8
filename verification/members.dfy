/**
  Contest memberships (`setMember` in internal/content/service.go).  The permission check, the row
  lock, the read, the write and the commit of a call are separate steps, and the steps of any number of
  calls interleave.
*/
module Members {
  import opened Base

  datatype Role = Organizer | Participant

  datatype Membership = Membership(contest: Id, user: Id, role: Role)

  datatype Actor = Actor(id: Id, admin: bool)

  /** `existing` is the role found under the lock on the contest row. */
  datatype Phase = Permitted | Locked | Seen(existing: Option<Role>) | Written

  /** A call that sets a role, or removes the member when there is none to set. */
  datatype Call = Call(actor: Actor, contest: Id, user: Id, role: Option<Role>, phase: Phase)

  datatype State = State(
    contests: set<Id>, users: set<Id>, rows: map<Id, Membership>, next: Id, calls: map<Id, Call>)

  datatype Step =
    | Permit(t: Id, actor: Actor, contest: Id, user: Id, role: Option<Role>)
    | Lock(t: Id)
    | Read(t: Id)
    | Write(t: Id)
    | Commit(t: Id)
    | Fail(t: Id)
    | Crash

  predicate Is(m: Membership, contest: Id, user: Id) {
    m.contest == contest && m.user == user
  }

  predicate HasRole(rows: map<Id, Membership>, contest: Id, user: Id, role: Role) {
    exists id :: id in rows && rows[id] == Membership(contest, user, role)
  }

  predicate IsMember(rows: map<Id, Membership>, contest: Id, user: Id) {
    exists id :: id in rows && Is(rows[id], contest, user)
  }

  /** The first row that matches, of which there is at most one. */
  function RoleOf(rows: map<Id, Membership>, contest: Id, user: Id): Option<Role> {
    if HasRole(rows, contest, user, Organizer) then Some(Organizer)
    else if HasRole(rows, contest, user, Participant) then Some(Participant)
    else None
  }

  predicate Manages(s: State, actor: Actor, contest: Id) {
    contest in s.contests && (actor.admin || HasRole(s.rows, contest, actor.id, Organizer))
  }

  /** Non-admins may neither make nor unmake an organizer. */
  predicate Refused(call: Call, existing: Option<Role>) {
    !call.actor.admin && (call.role == Some(Organizer) || existing == Some(Organizer))
  }

  predicate InTransaction(s: State, t: Id) {
    t in s.calls && !s.calls[t].phase.Permitted?
  }

  function Without(rows: map<Id, Membership>, contest: Id, user: Id): map<Id, Membership> {
    map id | id in rows && !Is(rows[id], contest, user) :: rows[id]
  }

  /** Delete, or insert with an update of the role on conflict. */
  function Effect(s: State, call: Call): map<Id, Membership> {
    if call.role.None? then Without(s.rows, call.contest, call.user)
    else if IsMember(s.rows, call.contest, call.user) then
      map id | id in s.rows ::
        if Is(s.rows[id], call.contest, call.user) then s.rows[id].(role := call.role.value) else s.rows[id]
    else s.rows[s.next := Membership(call.contest, call.user, call.role.value)]
  }

  predicate Enabled(s: State, a: Step) {
    match a
    case Permit(t, actor, contest, _, _) => t !in s.calls && Manages(s, actor, contest)
    case Lock(t) =>
      && t in s.calls && s.calls[t].phase.Permitted?
      && forall u :: u in s.calls && InTransaction(s, u) ==> s.calls[u].contest != s.calls[t].contest
    case Read(t) => t in s.calls && s.calls[t].phase.Locked?
    case Write(t) =>
      && t in s.calls && s.calls[t].phase.Seen? && !Refused(s.calls[t], s.calls[t].phase.existing)
      && s.calls[t].user in s.users
    case Commit(t) => t in s.calls && s.calls[t].phase.Written?
    case Fail(t) => t in s.calls
    case Crash => true
  }

  function At(s: State, t: Id, phase: Phase): State
    requires t in s.calls
  {
    s.(calls := s.calls[t := s.calls[t].(phase := phase)])
  }

  function Apply(s: State, a: Step): State
    requires Enabled(s, a)
  {
    match a
    case Permit(t, actor, contest, user, role) => s.(calls := s.calls[t := Call(actor, contest, user, role, Permitted)])
    case Lock(t) => At(s, t, Locked)
    case Read(t) => At(s, t, Seen(RoleOf(s.rows, s.calls[t].contest, s.calls[t].user)))
    case Write(t) => At(s, t, Written)
    case Commit(t) => s.(rows := Effect(s, s.calls[t]), next := s.next + 1, calls := s.calls - {t})
    case Fail(t) => s.(calls := s.calls - {t})
    case Crash => s.(calls := map[])
  }

  // ----- what every step keeps -----

  /** The unique index: one role for each user in each contest. */
  ghost predicate OneRole(rows: map<Id, Membership>) {
    forall i, j :: i in rows && j in rows && Is(rows[i], rows[j].contest, rows[j].user) ==> i == j
  }

  ghost predicate LocksHeld(s: State) {
    forall t, u :: InTransaction(s, t) && InTransaction(s, u) && s.calls[t].contest == s.calls[u].contest ==> t == u
  }

  /** What a call has read under its lock is still so, and what it is about to write has passed the guard. */
  ghost predicate Current(s: State, call: Call) {
    var role := RoleOf(s.rows, call.contest, call.user);
    && (call.phase.Seen? ==> call.phase.existing == role)
    && (call.phase.Written? ==> !Refused(call, role))
  }

  ghost predicate Inv(s: State) {
    && OneRole(s.rows) && (forall id :: id in s.rows ==> id < s.next)
    && LocksHeld(s)
    && forall t :: t in s.calls ==> Current(s, s.calls[t])
  }

  /** A commit touches the role of one user in one contest only. */
  lemma EffectElsewhere(s: State, call: Call, contest: Id, user: Id, role: Role)
    requires (forall id :: id in s.rows ==> id < s.next) && (contest != call.contest || user != call.user)
    ensures HasRole(Effect(s, call), contest, user, role) <==> HasRole(s.rows, contest, user, role)
  {
    var rows := Effect(s, call);
    if HasRole(s.rows, contest, user, role) {
      var id :| id in s.rows && s.rows[id] == Membership(contest, user, role);
      assert id in rows && rows[id] == s.rows[id];
    }
    if HasRole(rows, contest, user, role) {
      var id :| id in rows && rows[id] == Membership(contest, user, role);
      assert id in s.rows && s.rows[id] == rows[id];
    }
  }

  lemma RoleFound(rows: map<Id, Membership>, id: Id)
    requires OneRole(rows) && id in rows
    ensures RoleOf(rows, rows[id].contest, rows[id].user) == Some(rows[id].role)
  {
    var m := rows[id];
    assert HasRole(rows, m.contest, m.user, m.role) by { assert rows[id] == Membership(m.contest, m.user, m.role); }
    if m.role.Participant? && HasRole(rows, m.contest, m.user, Organizer) {
      var other :| other in rows && rows[other] == Membership(m.contest, m.user, Organizer);
      assert Is(rows[other], m.contest, m.user) && Is(rows[id], rows[other].contest, rows[other].user);
    }
  }

  lemma {:induction false} OtherRolesKept(s: State, call: Call)
    requires forall id :: id in s.rows ==> id < s.next
    ensures forall c: Id, u: Id :: c != call.contest || u != call.user ==> RoleOf(Effect(s, call), c, u) == RoleOf(s.rows, c, u)
  {
    hide Effect;
    forall c: Id, u: Id | c != call.contest || u != call.user ensures RoleOf(Effect(s, call), c, u) == RoleOf(s.rows, c, u) {
      EffectElsewhere(s, call, c, u, Organizer);
      EffectElsewhere(s, call, c, u, Participant);
    }
  }

  /** And there it does what it was asked for. */
  lemma EffectThere(s: State, call: Call)
    requires OneRole(s.rows) && forall id :: id in s.rows ==> id < s.next
    ensures OneRole(Effect(s, call))
    ensures RoleOf(Effect(s, call), call.contest, call.user) == call.role
  {
    var rows := Effect(s, call);
    if call.role.Some? {
      if IsMember(s.rows, call.contest, call.user) {
        var id :| id in s.rows && Is(s.rows[id], call.contest, call.user);
        RoleFound(rows, id);
      } else {
        RoleFound(rows, s.next);
      }
    }
  }

  lemma CommitKept(s: State, t: Id)
    requires Inv(s) && Enabled(s, Commit(t))
    ensures Inv(Apply(s, Commit(t)))
  {
    var s' := Apply(s, Commit(t));
    EffectThere(s, s.calls[t]);
    assert forall u :: InTransaction(s', u) ==> InTransaction(s, u);
    forall u | u in s'.calls ensures Current(s', s'.calls[u]) {
      if InTransaction(s', u) {
        assert InTransaction(s, t) && InTransaction(s, u);
        EffectElsewhere(s, s.calls[t], s.calls[u].contest, s.calls[u].user, Organizer);
        EffectElsewhere(s, s.calls[t], s.calls[u].contest, s.calls[u].user, Participant);
      }
    }
  }

  lemma CallKept(s: State, a: Step)
    requires Inv(s) && Enabled(s, a) && !a.Commit?
    ensures Inv(Apply(s, a))
  {
  }

  lemma StepKept(s: State, a: Step)
    requires Inv(s) && Enabled(s, a)
    ensures Inv(Apply(s, a))
  {
    if a.Commit? { CommitKept(s, a.t); } else { CallKept(s, a); }
  }

  /** The step commits a call made by an administrator. */
  predicate ByAdmin(s: State, a: Step) {
    a.Commit? && a.t in s.calls && s.calls[a.t].actor.admin
  }

  ghost predicate SameOrganizers(s: State, s': State) {
    forall contest: Id, user: Id :: HasRole(s'.rows, contest, user, Organizer) <==> HasRole(s.rows, contest, user, Organizer)
  }

  lemma OrganizersKept(s: State, a: Step)
    requires Inv(s) && Enabled(s, a) && !ByAdmin(s, a)
    ensures SameOrganizers(s, Apply(s, a))
  {
    if a.Commit? {
      var call, s' := s.calls[a.t], Apply(s, a);
      EffectThere(s, call);
      forall contest: Id, user: Id
        ensures HasRole(s'.rows, contest, user, Organizer) <==> HasRole(s.rows, contest, user, Organizer)
      {
        if contest != call.contest || user != call.user { EffectElsewhere(s, call, contest, user, Organizer); }
      }
    }
  }

  ghost predicate Runs(s: State, steps: seq<Step>, s': State)
    decreases |steps|
  {
    if steps == [] then s' == s else Enabled(s, steps[0]) && Runs(Apply(s, steps[0]), steps[1..], s')
  }

  ghost predicate NoAdminCommits(s: State, steps: seq<Step>)
    decreases |steps|
  {
    steps != [] && Enabled(s, steps[0]) ==> !ByAdmin(s, steps[0]) && NoAdminCommits(Apply(s, steps[0]), steps[1..])
  }

  /** In every interleaving each user keeps at most one role in each contest. */
  lemma {:induction false} AlwaysOneRole(s: State, steps: seq<Step>, s': State)
    requires Inv(s) && Runs(s, steps, s')
    ensures Inv(s')
    decreases |steps|
  {
    if steps != [] {
      StepKept(s, steps[0]);
      AlwaysOneRole(Apply(s, steps[0]), steps[1..], s');
    }
  }

  /** In every interleaving calls of non-admins leave the organizers of every contest as they were. */
  lemma {:induction false} OnlyAdminsMakeOrganizers(s: State, steps: seq<Step>, s': State)
    requires Inv(s) && Runs(s, steps, s') && NoAdminCommits(s, steps)
    ensures SameOrganizers(s, s')
    decreases |steps|
  {
    if steps != [] {
      var s1 := Apply(s, steps[0]);
      StepKept(s, steps[0]);
      OrganizersKept(s, steps[0]);
      OnlyAdminsMakeOrganizers(s1, steps[1..], s');
    }
  }

  // ----- the permission check is made before the lock -----

  /** The role that the last commit by an admin for this user has left, if there was one. */
  ghost function LastGrant(s: State, steps: seq<Step>, contest: Id, user: Id): Option<Option<Role>>
    decreases |steps|
  {
    if steps == [] || !Enabled(s, steps[0]) then None
    else
      var later := LastGrant(Apply(s, steps[0]), steps[1..], contest, user);
      if later.Some? then later
      else if ByAdmin(s, steps[0]) && Concerns(s.calls[steps[0].t], contest, user) then Some(s.calls[steps[0].t].role)
      else None
  }

  predicate Concerns(call: Call, contest: Id, user: Id) {
    call.contest == contest && call.user == user
  }

  lemma {:induction false} GrantStep(s: State, a: Step, contest: Id, user: Id)
    requires Inv(s) && Enabled(s, a)
    ensures HasRole(Apply(s, a).rows, contest, user, Organizer) <==>
      if ByAdmin(s, a) && Concerns(s.calls[a.t], contest, user) then s.calls[a.t].role == Some(Organizer)
      else HasRole(s.rows, contest, user, Organizer)
  {
    if !ByAdmin(s, a) { OrganizersKept(s, a); }
    else if Concerns(s.calls[a.t], contest, user) { EffectThere(s, s.calls[a.t]); }
    else { EffectElsewhere(s, s.calls[a.t], contest, user, Organizer); }
  }

  /** Who organises a contest is decided by the last grant or revocation of an admin, and by nothing else. */
  lemma {:induction false} OrganizerByLastGrant(s: State, steps: seq<Step>, s': State, contest: Id, user: Id)
    requires Inv(s) && Runs(s, steps, s')
    ensures s'.contests == s.contests
    ensures HasRole(s'.rows, contest, user, Organizer) <==>
      var grant := LastGrant(s, steps, contest, user);
      if grant.Some? then grant.value == Some(Organizer) else HasRole(s.rows, contest, user, Organizer)
    decreases |steps|
  {
    if steps != [] {
      StepKept(s, steps[0]);
      GrantStep(s, steps[0], contest, user);
      OrganizerByLastGrant(Apply(s, steps[0]), steps[1..], s', contest, user);
    }
  }

  /**
    The exact condition under which the check made when a call was permitted still holds when it commits: since
    then no admin has changed the role of the actor, or the last one to do so has left it at organizer.
  */
  lemma {:induction false} ManagesAtCommit(
    s: State, t: Id, actor: Actor, contest: Id, user: Id, role: Option<Role>, steps: seq<Step>, s': State)
    requires Inv(s) && Enabled(s, Permit(t, actor, contest, user, role)) && !actor.admin
    requires Runs(Apply(s, Permit(t, actor, contest, user, role)), steps, s') && Enabled(s', Commit(t))
    ensures Manages(s', actor, contest) <==>
      LastGrant(Apply(s, Permit(t, actor, contest, user, role)), steps, contest, actor.id) in {None, Some(Some(Organizer))}
  {
    var s1 := Apply(s, Permit(t, actor, contest, user, role));
    StepKept(s, Permit(t, actor, contest, user, role));
    OrganizerByLastGrant(s1, steps, s', contest, actor.id);
  }

  const ALICE := Actor(1, false)
  const ROOT := Actor(9, true)

  /** One contest, organised by user 1, and users 1 and 2. */
  const BEFORE := State({5}, {1, 2}, map[0 := Membership(5, 1, Organizer)], 1, map[])

  /** User 1 is permitted to add user 2, then loses the role, and goes on. */
  const DEMOTION: seq<Step> := [
    Permit(10, ALICE, 5, 2, Some(Participant)), Permit(11, ROOT, 5, 1, None), Lock(11), Read(11), Write(11), Commit(11),
    Lock(10), Read(10), Write(10)]

  lemma {:induction false} WitnessRoles(rows: map<Id, Membership>)
    ensures rows == map[0 := Membership(5, 1, Organizer)] ==>
      HasRole(rows, 5, 1, Organizer) && RoleOf(rows, 5, 1) == Some(Organizer)
    ensures rows == map[] ==> RoleOf(rows, 5, 2) == None && !HasRole(rows, 5, 1, Organizer)
  {
    if rows == map[0 := Membership(5, 1, Organizer)] { assert rows[0] == Membership(5, 1, Organizer); }
  }

  /** The call of user 1, and that of the admin, as far as they have come. */
  function Late(phase: Phase): Call { Call(ALICE, 5, 2, Some(Participant), phase) }

  function Demoting(phase: Phase): State {
    BEFORE.(calls := map[10 := Late(Permitted), 11 := Call(ROOT, 5, 1, None, phase)])
  }

  function Demoted(phase: Phase): State {
    State({5}, {1, 2}, map[], 2, map[10 := Late(phase)])
  }

  lemma {:induction false} PermitBoth()
    ensures Inv(BEFORE) && Enabled(BEFORE, DEMOTION[0]) && Enabled(Apply(BEFORE, DEMOTION[0]), DEMOTION[1])
    ensures Apply(Apply(BEFORE, DEMOTION[0]), DEMOTION[1]) == Demoting(Permitted)
  {
    WitnessRoles(BEFORE.rows);
  }

  lemma {:induction false} AdminDemotes()
    ensures Enabled(Demoting(Permitted), Lock(11)) && Apply(Demoting(Permitted), Lock(11)) == Demoting(Locked)
    ensures Enabled(Demoting(Locked), Read(11)) && Apply(Demoting(Locked), Read(11)) == Demoting(Seen(Some(Organizer)))
    ensures Enabled(Demoting(Seen(Some(Organizer))), Write(11)) && Apply(Demoting(Seen(Some(Organizer))), Write(11)) == Demoting(Written)
    ensures Enabled(Demoting(Written), Commit(11)) && Apply(Demoting(Written), Commit(11)) == Demoted(Permitted)
  {
    WitnessRoles(BEFORE.rows);
  }

  lemma {:induction false} CallGoesOn()
    ensures Enabled(Demoted(Permitted), Lock(10)) && Apply(Demoted(Permitted), Lock(10)) == Demoted(Locked)
    ensures Enabled(Demoted(Locked), Read(10)) && Apply(Demoted(Locked), Read(10)) == Demoted(Seen(None))
    ensures Enabled(Demoted(Seen(None)), Write(10)) && Apply(Demoted(Seen(None)), Write(10)) == Demoted(Written)
  {
    WitnessRoles(map[]);
  }

  lemma {:induction false} RunsOne(s: State, steps: seq<Step>, s': State)
    requires steps != [] && Enabled(s, steps[0]) && Runs(Apply(s, steps[0]), steps[1..], s')
    ensures Runs(s, steps, s')
  {
  }

  /** The admin demotes user 1, and the call of user 1 goes on. */
  lemma {:induction false} DemotionTail()
    ensures Runs(Demoting(Permitted), DEMOTION[2..], Demoted(Written))
  {
    AdminDemotes();
    CallGoesOn();
    RunsOne(Demoted(Seen(None)), DEMOTION[8..], Demoted(Written));
    RunsOne(Demoted(Locked), DEMOTION[7..], Demoted(Written));
    RunsOne(Demoted(Permitted), DEMOTION[6..], Demoted(Written));
    RunsOne(Demoting(Written), DEMOTION[5..], Demoted(Written));
    RunsOne(Demoting(Seen(Some(Organizer))), DEMOTION[4..], Demoted(Written));
    RunsOne(Demoting(Locked), DEMOTION[3..], Demoted(Written));
    RunsOne(Demoting(Permitted), DEMOTION[2..], Demoted(Written));
  }

  /** The check and the commit can disagree: someone who has just been demoted still adds a participant. */
  lemma {:induction false} DemotedStillAdds()
    ensures Inv(BEFORE) && Runs(BEFORE, DEMOTION, Demoted(Written))
    ensures Enabled(Demoted(Written), Commit(10)) && !Manages(Demoted(Written), ALICE, 5)
    ensures RoleOf(Apply(Demoted(Written), Commit(10)).rows, 5, 2) == Some(Participant)
  {
    PermitBoth();
    DemotionTail();
    RunsOne(Apply(BEFORE, DEMOTION[0]), DEMOTION[1..], Demoted(Written));
    RunsOne(BEFORE, DEMOTION, Demoted(Written));
    WitnessRoles(map[]);
    EffectThere(Demoted(Written), Late(Written));
  }

  // ----- the call as the service runs it -----

  datatype Error = Unauthorized | NotFound | Forbidden | InvalidRole

  class Memberships {
    var s: State

    constructor (s: State)
      ensures this.s == s
    {
      this.s := s;
    }

    method Do(a: Step)
      requires Inv(s) && Enabled(s, a)
      modifies this
      ensures s == Apply(old(s), a) && Inv(s)
    {
      StepKept(s, a);
      s := Apply(s, a);
    }

    /** `role` is the text of the request; it is empty and ignored when the member is removed. */
    method SetMember(t: Id, actor: Option<Actor>, contest: Id, user: Id, role: string, remove: bool) returns (r: Result<(), Error>)
      requires Inv(s) && s.calls == map[] && (remove ==> role == "")
      modifies this
      ensures Inv(s) && s.calls == map[]
      ensures r.Ok? <==>
        && actor.Some? && Manages(old(s), actor.value, contest) && (remove || role == "organizer" || role == "participant")
        && (actor.value.admin || (role != "organizer" && RoleOf(old(s).rows, contest, user) != Some(Organizer)))
        && user in old(s).users
      ensures r.Err? ==> s.rows == old(s).rows
      ensures r.Ok? ==> RoleOf(s.rows, contest, user) ==
                        if remove then None else if role == "organizer" then Some(Organizer) else Some(Participant)
      ensures r.Ok? ==> forall c: Id, u: Id :: c != contest || u != user ==> RoleOf(s.rows, c, u) == RoleOf(old(s).rows, c, u)
    {
      if actor.None? { return Err(Unauthorized); }
      if contest !in s.contests { return Err(NotFound); }
      if !actor.value.admin && !HasRole(s.rows, contest, actor.value.id, Organizer) { return Err(Forbidden); }
      if role != "organizer" && role != "participant" && !remove { return Err(InvalidRole); }
      var wanted := if remove then None else if role == "organizer" then Some(Organizer) else Some(Participant);
      r := Record(t, actor.value, contest, user, wanted);
    }

    /** The permission is known; the guard and the write follow under the lock on the contest. */
    method Record(t: Id, actor: Actor, contest: Id, user: Id, wanted: Option<Role>) returns (r: Result<(), Error>)
      requires Inv(s) && s.calls == map[] && Enabled(s, Permit(t, actor, contest, user, wanted))
      modifies this
      ensures Inv(s) && s.calls == map[]
      ensures r.Ok? <==>
        && (actor.admin || (wanted != Some(Organizer) && RoleOf(old(s).rows, contest, user) != Some(Organizer)))
        && user in old(s).users
      ensures r.Err? ==> s.rows == old(s).rows
      ensures r.Ok? ==> RoleOf(s.rows, contest, user) == wanted
      ensures r.Ok? ==> forall c: Id, u: Id :: c != contest || u != user ==> RoleOf(s.rows, c, u) == RoleOf(old(s).rows, c, u)
    {
      hide Inv, RoleOf, Effect, Manages;
      Do(Permit(t, actor, contest, user, wanted));
      Do(Lock(t));
      Do(Read(t));
      var call := s.calls[t];
      if Refused(call, call.phase.existing) {
        Do(Fail(t));
        return Err(Forbidden);
      }
      if user !in s.users {
        Do(Fail(t));
        return Err(NotFound);
      }
      Do(Write(t));
      Changed(s, s.calls[t]);
      Do(Commit(t));
      r := Ok(());
    }
  }

  /** The commit changes the one role that was asked for. */
  lemma {:induction false} Changed(s: State, call: Call)
    requires Inv(s)
    ensures RoleOf(Effect(s, call), call.contest, call.user) == call.role
    ensures forall c: Id, u: Id :: c != call.contest || u != call.user ==> RoleOf(Effect(s, call), c, u) == RoleOf(s.rows, c, u)
  {
    EffectThere(s, call);
    OtherRolesKept(s, call);
  }
}
