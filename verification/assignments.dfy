/** Assigning a revision to a series (`Assign` in internal/content/service.go). */
module Assignments {
  import opened Base
  import opened World
  import opened System
  import Imports
  import Policy
  import Rows
  import RowsSafety
  import Validation

  datatype Error = Denied(cause: Policy.Error) | Conflict | Invalid | Taken

  /** The unique indexes of a series: no other assignment has the code or the position. */
  predicate Vacant(s: Rows.State, series: Id, code: string, position: int) {
    forall i :: i in s.assigns && s.assigns[i].series == series ==> s.assigns[i].code != code && s.assigns[i].position != position
  }

  /** The caller manages the contest of the series, and the problem of the revision. */
  predicate Authorised(c: Policy.Catalog, actor: Option<Policy.Actor>, series: Id, rev: Id) {
    && series in c.series && Policy.ManageContest(c, actor, c.series[series].contest).Ok?
    && rev in c.revs && Policy.ManageProblem(c, actor, c.revs[rev].problem).Ok?
  }

  predicate CanAssign(
    s: Rows.State, c: Policy.Catalog, actor: Option<Policy.Actor>, series: Id, rev: Id, code: string, position: int)
  {
    && Authorised(c, actor, series, rev) && rev in s.revs && s.revs[rev].state.Published?
    && code != "" && Validation.ByteLength(code) <= 64 && position >= 0
    && (forall i :: i in s.assigns && s.assigns[i].series == series ==> s.assigns[i].code != code)
    && (forall i :: i in s.assigns && s.assigns[i].series == series ==> s.assigns[i].position != position)
  }

  /** One new assignment to a published revision, with the problem of that revision; nothing else has changed. */
  ghost predicate Assigned(w: World, w': World, id: Id, series: Id, rev: Id, code: string, position: int) {
    && rev in w.rows.revs && id !in w.rows.assigns && RowsSafety.PointsToPublished(w'.rows, rev, w.rows.revs[rev].problem)
    && w'.rows.assigns == w.rows.assigns[id := Rows.Assignment(series, w.rows.revs[rev].problem, rev, code, position)]
    && w'.rows.revs == w.rows.revs && w'.rows.problems == w.rows.problems && w'.rows.previews == w.rows.previews
    && w'.disk == w.disk
  }

  lemma NextIsNew(w: Sound)
    ensures w.rows.next !in w.rows.assigns
  {
  }

  /** The lookups at the head, with the first refusal. */
  method Authorise(c: Policy.Catalog, actor: Option<Policy.Actor>, series: Id, rev: Id) returns (r: Option<Policy.Error>)
    ensures r.None? <==> Authorised(c, actor, series, rev)
    ensures r.None? ==> rev in c.revs
  {
    if series !in c.series { return Some(Policy.NotFound); }
    var contest := Policy.ManageContest(c, actor, c.series[series].contest);
    if contest.Err? { return Some(contest.error); }
    if rev !in c.revs { return Some(Policy.NotFound); }
    var problem := Policy.ManageProblem(c, actor, c.revs[rev].problem);
    r := if problem.Err? then Some(problem.error) else None;
  }

  /**
    `c` holds the tables that the policy reads, which share their revisions with the system.  The state of the
    revision is read outside the statement that inserts.
  */
  method Assign(
    sys: Server, t: Id, c: Policy.Catalog, actor: Option<Policy.Actor>, series: Id, rev: Id, code: string, position: int)
    returns (r: Result<Id, Error>)
    requires Idle(sys.w) && c.revs == sys.w.rows.revs
    modifies sys
    ensures Idle(sys.w)
    ensures r.Ok? <==> CanAssign(old(sys.w).rows, c, actor, series, rev, Validation.TrimSpace(code), position)
    ensures r.Ok? ==> Assigned(old(sys.w), sys.w, r.value, series, rev, Validation.TrimSpace(code), position)
    ensures r.Err? ==> Unchanged(old(sys.w), sys.w) && (r.error.Denied? <==> !Authorised(c, actor, series, rev))
  {
    hide Imports.Good, Authorised, Assigned, Validation.TrimSpace;
    var denied := Authorise(c, actor, series, rev);
    if denied.Some? { return Err(Denied(denied.value)); }
    if !sys.w.rows.revs[rev].state.Published? { return Err(Conflict); }
    r := CheckAndInsert(sys, t, series, rev, Validation.TrimSpace(code), position);
  }

  /** The state of the revision has been read; other checks and the unique indexes may still refuse. */
  method CheckAndInsert(sys: Server, t: Id, series: Id, rev: Id, code: string, position: int) returns (r: Result<Id, Error>)
    requires Idle(sys.w) && rev in sys.w.rows.revs && sys.w.rows.revs[rev].state.Published?
    modifies sys
    ensures Idle(sys.w)
    ensures r.Ok? <==>
      code != "" && Validation.ByteLength(code) <= 64 && position >= 0 && Vacant(old(sys.w).rows, series, code, position)
    ensures r.Ok? ==> Assigned(old(sys.w), sys.w, r.value, series, rev, code, position)
    ensures r.Err? ==> Unchanged(old(sys.w), sys.w) && !r.error.Denied?
  {
    hide Imports.Good;
    sys.Do(Alone(Rows.CheckAssign(t, rev)));
    if code == "" || Validation.ByteLength(code) > 64 || position < 0 { return Err(Invalid); }
    if !Vacant(sys.w.rows, series, code, position) { return Err(Taken); }
    NextIsNew(sys.w);
    var id := sys.w.rows.next;
    sys.Do(Alone(Rows.Assign(t, series, code, position)));
    r := Ok(id);
  }
}
