/** The read policy on the tables of a running system: its foreign keys hold, and what it lets through is on file. */
module PolicyRuns {
  import opened Base
  import opened Policy
  import opened World
  import Members
  import Rows
  import RowsSafety
  import WorldSafety
  import WorldRuns

  function CatalogOf(
    w: World, contests: map<Id, Contest>, series: map<Id, Series>, members: map<Id, Members.Membership>): Catalog
  {
    Catalog(contests, series, members, w.rows.problems, w.rows.revs, w.rows.assigns, w.disk.arts.Keys)
  }

  /** The foreign keys of the tables this model does not change: series to contests, assignments to series. */
  ghost predicate SeriesLinked(w: World, contests: map<Id, Contest>, series: map<Id, Series>) {
    && (forall s :: s in series ==> series[s].contest in contests)
    && forall a :: a in w.rows.assigns ==> w.rows.assigns[a].series in series
  }

  lemma ProblemLinked(s: Rows.State, r: Id)
    requires RowsSafety.Inv(s) && r in s.revs
    ensures s.revs[r].problem in s.problems
  {
  }

  lemma AssignmentPoints(s: Rows.State, a: Id)
    requires RowsSafety.Inv(s) && a in s.assigns
    ensures RowsSafety.PointsToPublished(s, s.assigns[a].revision, s.assigns[a].problem)
  {
  }

  lemma InvLinked(w: World, contests: map<Id, Contest>, series: map<Id, Series>, members: map<Id, Members.Membership>)
    requires WorldSafety.Inv(w) && SeriesLinked(w, contests, series)
    ensures Linked(CatalogOf(w, contests, series, members))
  {
    var c := CatalogOf(w, contests, series, members);
    forall r | r in c.revs ensures c.revs[r].problem in c.problems { ProblemLinked(w.rows, r); }
    forall r | r in c.revs ensures ArtifactsLinked(c, c.revs[r]) { WorldRuns.RevisionRows(w, r); }
    forall a | a in c.assigns ensures AssignLinked(c, c.assigns[a]) {
      AssignmentPoints(w.rows, a);
      ProblemLinked(w.rows, w.rows.assigns[a].revision);
    }
  }

  /**
    In every reachable state, whatever the interleaving: all the files listed in a statement that is open
    to a user may be downloaded by that user, and are on disk with the recorded bytes.
  */
  lemma {:induction false} ListedFilesAreServed(
    w0: World, steps: seq<Step>, w: World, contests: map<Id, Contest>, series: map<Id, Series>,
    members: map<Id, Members.Membership>, actor: Actor, a: Id, now: Time, s: Statement, id: Id)
    requires WorldRuns.Fresh(w0) && WorldRuns.Runs(w0, steps, w) && SeriesLinked(w, contests, series)
    requires var c := CatalogOf(w, contests, series, members); Open(c, actor, a, now) && IsStatement(c, a, s) && Lists(s, id)
    ensures MayDownload(CatalogOf(w, contests, series, members), actor, id, now)
    ensures WorldRuns.Uncollected(w, id)
  {
    WorldRuns.FreshIsSafe(w0);
    WorldRuns.RunSafe(w0, steps, w);
    InvLinked(w, contests, series, members);
    StatementsCanBeDownloaded(CatalogOf(w, contests, series, members), actor, a, now, s, id);
    WorldRuns.RowOnFile(w, id);
  }
}
