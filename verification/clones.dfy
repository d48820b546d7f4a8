/**
  Revision numbers and new drafts over whole runs: the numbers of a problem are 1 to n, and a new
  draft is a copy of the latest revision that shares its files.
*/
module Clones {
  import opened Base
  import opened World
  import opened WorldSafety
  import opened WorldRuns
  import Disk
  import DiskSafety
  import Imports
  import Rows
  import RowsSafety

  // ----- numbers -----

  /** The numbers taken by the revisions of a problem are exactly 1 to n. */
  ghost predicate NumbersUpTo(revs: map<Id, Rows.Revision>, p: Id, n: nat) {
    forall k :: RowsSafety.HasNumber(revs, p, k) <==> 1 <= k <= n
  }

  lemma {:induction false} NumbersBelow(revs: map<Id, Rows.Revision>, p: Id, n: int, k: int)
    requires RowsSafety.Numbered(revs) && RowsSafety.HasNumber(revs, p, n) && 1 <= k <= n
    ensures RowsSafety.HasNumber(revs, p, k)
    decreases n - k
  {
    if k < n {
      NumbersBelow(revs, p, n, k + 1);
      var r :| r in revs && revs[r].problem == p && revs[r].number == k + 1;
      assert RowsSafety.Follows(revs, r);
    }
  }

  lemma {:induction false} GreatestNumber(revs: map<Id, Rows.Revision>, p: Id) returns (n: nat)
    ensures forall r :: r in revs && revs[r].problem == p ==> revs[r].number <= n
    ensures n == 0 || RowsSafety.HasNumber(revs, p, n)
    decreases |revs|
  {
    n := 0;
    if revs != map[] {
      var any :| any in revs;
      var rest := revs - {any};
      n := GreatestNumber(rest, p);
      if n > 0 {
        var r :| r in rest && rest[r].problem == p && rest[r].number == n;
        assert r in revs;
      }
      if revs[any].problem == p && revs[any].number > n { n := revs[any].number; }
      assert forall r :: r in revs && r != any ==> r in rest;
    }
  }

  lemma NumbersAreOneToN(revs: map<Id, Rows.Revision>, p: Id) returns (n: nat)
    requires RowsSafety.Numbered(revs) && forall r :: r in revs ==> revs[r].number > 0
    ensures NumbersUpTo(revs, p, n)
  {
    n := GreatestNumber(revs, p);
    forall k ensures RowsSafety.HasNumber(revs, p, k) <==> 1 <= k <= n {
      if 1 <= k <= n { NumbersBelow(revs, p, n, k); }
    }
  }

  predicate SameNumber(q: Rows.Revision, r: Rows.Revision) {
    q.problem == r.problem && q.number == r.number
  }

  /** In every reachable state the revisions of a problem are numbered 1 to n, and no number is taken twice. */
  lemma {:induction false} RevisionsAreNumbered(w0: World, steps: seq<Step>, w: World, p: Id) returns (n: nat)
    requires Fresh(w0) && Runs(w0, steps, w)
    ensures NumbersUpTo(w.rows.revs, p, n)
    ensures forall q, r :: q in w.rows.revs && r in w.rows.revs && SameNumber(w.rows.revs[q], w.rows.revs[r]) ==> q == r
  {
    FreshIsSafe(w0);
    RunSafe(w0, steps, w);
    Positive(w.rows);
    n := NumbersAreOneToN(w.rows.revs, p);
  }

  lemma Positive(s: Rows.State)
    requires RowsSafety.Inv(s)
    ensures RowsSafety.Numbered(s.revs) && forall r :: r in s.revs ==> s.revs[r].number > 0
  {
  }

  // ----- transactions that save nothing -----

  predicate MaySave(op: Rows.Op) {
    op.Editing? || op.Importing? || op.Imported? || op.Closed?
  }

  predicate InsideSave(s: Disk.State, t: Id) {
    s.mu.Saving? && s.mu.tid == t
  }

  ghost predicate SavesNothing(w: World, t: Id) {
    t in w.disk.txs && w.disk.txs[t].saved == map[] && !InsideSave(w.disk, t)
  }

  ghost predicate Quiet(w: World) {
    forall t :: t in w.rows.txs && !MaySave(w.rows.txs[t].op) ==> SavesNothing(w, t)
  }

  lemma {:induction false} NothingSaved(s: Disk.State, a: Disk.Action, t: Id)
    requires Disk.Enabled(s, a) && OwnStep(a) && (a.Stage? ==> a.t != t)
    requires t in s.txs && s.txs[t].saved == map[] && !InsideSave(s, t)
    ensures var s' := Disk.Apply(s, a); t in s'.txs && s'.txs[t].saved == map[] && !InsideSave(s', t)
  {
    hide Disk.Keys, Disk.KeysOf, Disk.HasRow, Disk.Queue, Disk.Among;
  }

  lemma QuietOnDisk(w: World, a: Disk.Action, w': World)
    requires Quiet(w) && SameTxs(w) && Possible(w, OnDisk(a)) && w' == After(w, OnDisk(a))
    ensures Quiet(w')
  {
    hide Disk.Enabled, Disk.Apply, OwnStep;
    forall t | t in w'.rows.txs && !MaySave(w'.rows.txs[t].op) ensures SavesNothing(w', t) {
      assert SavesNothing(w, t);
      NothingSaved(w.disk, a, t);
    }
  }

  lemma QuietRun(w: World, t: Id, stmt: Rows.Stmt, w': World)
    requires Quiet(w) && RowsOnly(w, t, w') && Rows.Exec(w.rows, t, stmt) == Some(w'.rows)
    ensures Quiet(w')
  {
  }

  lemma QuietBegin(w: World, t: Id, cutoff: Option<Time>, w': World)
    requires Quiet(w) && SameTxs(w) && DiskSafety.MutexOk(w.disk) && Disk.Enabled(w.disk, Disk.Begin(t, cutoff))
    requires w' == w.(disk := Disk.Apply(w.disk, Disk.Begin(t, cutoff)), rows := Rows.Begin(w.rows, t))
    ensures Quiet(w')
  {
  }

  lemma QuietEnd(w: World, t: Id, w': World)
    requires Quiet(w) && SameTxs(w) && t in w.disk.txs && !Disk.Holds(w.disk, t)
    requires w'.disk.txs == w.disk.txs - {t} && w'.rows.txs == w.rows.txs - {t} && w'.disk.mu == w.disk.mu
    ensures Quiet(w')
  {
  }

  lemma QuietEnds(w: World, s: Step, w': World)
    requires Quiet(w) && SameTxs(w) && Possible(w, s) && w' == After(w, s) && (s.Commit? || s.Abort?)
    ensures Quiet(w')
  {
    QuietEnd(w, s.t, w');
  }

  lemma QuietErase(w: World, t: Id, id: Id, w': World)
    requires Quiet(w) && SameTxs(w) && Disk.Enabled(w.disk, Disk.Delete(t, id))
    requires w' == w.(disk := Disk.Apply(w.disk, Disk.Delete(t, id)))
    ensures Quiet(w')
  {
  }

  lemma QuietAlone(w: World, a: Rows.Single, w': World)
    requires Quiet(w) && SameTxs(w) && Rows.SingleEnabled(w.rows, a) && w' == w.(rows := Rows.SingleApply(w.rows, a))
    ensures Quiet(w')
  {
  }

  lemma QuietStep(w: World, s: Step, w': World)
    requires Quiet(w) && SameTxs(w) && RowsSafety.Inv(w.rows) && DiskSafety.MutexOk(w.disk) && Possible(w, s) && w' == After(w, s)
    ensures Quiet(w')
  {
    match s
    case OnDisk(a) => QuietOnDisk(w, a, w');
    case Run(t, stmt) => { StmtRowsOnly(w, t, stmt, w'); QuietRun(w, t, stmt, w'); }
    case Begin(t, cutoff) => QuietBegin(w, t, cutoff, w');
    case Erase(t, id) => QuietErase(w, t, id, w');
    case Crash =>
    case Alone(a) => QuietAlone(w, a, w');
    case _ => QuietEnds(w, s, w');
  }

  lemma {:induction false} QuietRuns(w: World, steps: seq<Step>, w': World)
    requires Inv(w) && Quiet(w) && Runs(w, steps, w')
    ensures Quiet(w')
    decreases |steps|
  {
    if steps != [] {
      StepKept(w, steps[0], After(w, steps[0]));
      QuietStep(w, steps[0], After(w, steps[0]));
      QuietRuns(After(w, steps[0]), steps[1..], w');
    }
  }

  // ----- a new draft -----

  /**
    The draft that the clone adds: the number after the latest, the metadata and the PDF of the latest
    revision as it is now, and one test for each of its tests under a new number.
  */
  ghost predicate DraftOf(s: Rows.State, op: Rows.Op, s': Rows.State)
    requires op.Cloning?
  {
    && Rows.IsLatest(s.revs, op.problem, op.from) && op.to !in s.revs && op.to in s'.revs
    && s'.revs == s.revs[op.to := s'.revs[op.to]]
    && s'.problems == s.problems && s'.previews == s.previews && s'.assigns == s.assigns
    && var from, to := s.revs[op.from], s'.revs[op.to];
       && to == Rows.Revision(op.problem, from.number + 1, Rows.Draft, from.meta, from.pdf, None, to.tests)
       && (forall j :: j in to.tests ==> j in op.copies && op.copies[j] in from.tests && to.tests[j] == from.tests[op.copies[j]])
       && (forall i :: i in from.tests ==> CopiedTo(op.copies, to.tests, i))
       && (forall j, k :: j in to.tests && k in to.tests && op.copies[j] == op.copies[k] ==> j == k)
       && RowsSafety.PositionsUnique(to.tests)
  }

  ghost predicate CopiedTo(copies: map<Id, Id>, tests: map<Id, Rows.TestCase>, i: Id) {
    exists j :: j in tests && j in copies && copies[j] == i
  }

  lemma {:induction false} AllCopied(from: Rows.Revision, to: Rows.Revision, copies: map<Id, Id>)
    requires RowsSafety.Copied(from, to, copies) && copies.Values == from.tests.Keys
    ensures forall i :: i in from.tests ==> CopiedTo(copies, to.tests, i)
  {
    forall i | i in from.tests ensures CopiedTo(copies, to.tests, i) {
      assert i in copies.Values;
      var j :| j in copies && copies[j] == i;
      assert j in to.tests.Keys;
    }
  }

  /** A clone writes its draft and nothing else. */
  lemma {:induction false} OnlyTheDraft(s: Rows.State, t: Id)
    requires t in s.txs && s.txs[t].op.Cloning? && RowsSafety.CloningOk(s, s.txs[t]) && RowsSafety.Locked(s, s.txs[t])
    ensures var x, s' := s.txs[t], Rows.Commit(s, t);
            && s'.revs == s.revs[x.op.to := x.revs[x.op.to]]
            && s'.problems == s.problems && s'.previews == s.previews && s'.assigns == s.assigns
  {
    hide RowsSafety.Copied, Rows.IsLatest;
    var x := s.txs[t];
    forall r | r in x.revs ensures r == x.op.to { assert Rows.LocksRevision(x, r); }
  }

  lemma CloneCommits(s: Rows.State, t: Id)
    requires t in s.txs && s.txs[t].op.Cloning? && RowsSafety.TxOk(s, s.txs[t]) && Rows.CanCommit(s, t)
    ensures DraftOf(s, s.txs[t].op, Rows.Commit(s, t))
  {
    hide RowsSafety.PositionsUnique, RowsSafety.Locked, CopiedTo, Rows.Commit, Validation.FixedPoint;
    var x := s.txs[t];
    assert RowsSafety.CloningOk(s, x);
    assert RowsSafety.DocOk(x.revs[x.op.to], s.parse, s.next);
    OnlyTheDraft(s, t);
    AllCopied(s.revs[x.op.from], x.revs[x.op.to], x.op.copies);
  }

  lemma CloneReady(w: World, t: Id)
    requires RowsSafety.Inv(w.rows) && Quiet(w) && t in w.rows.txs && w.rows.txs[t].op.Cloning?
    ensures RowsSafety.TxOk(w.rows, w.rows.txs[t]) && SavesNothing(w, t)
  {
  }

  lemma {:induction false} FreshRunQuiet(w0: World, steps: seq<Step>, w: World)
    requires Fresh(w0) && Runs(w0, steps, w)
    ensures RowsSafety.Inv(w.rows) && Quiet(w)
  {
    FreshIsSafe(w0);
    RunSafe(w0, steps, w);
    QuietRuns(w0, steps, w);
  }

  lemma CommitMovesNoFile(w: World, t: Id, w': World)
    requires Imports.Commits(w, t, w')
    ensures w'.disk.files == w.disk.files && w'.rows == Rows.Commit(w.rows, t)
  {
  }

  /** In every run: a new draft is one coherent copy of the latest revision, and no file was made for it. */
  lemma {:induction false} EveryDraftIsACopy(w0: World, steps: seq<Step>, w: World, t: Id, w': World)
    requires Fresh(w0) && Runs(w0, steps, w)
    requires Imports.Commits(w, t, w') && Rows.CanCommit(w.rows, t) && w.rows.txs[t].op.Cloning?
    ensures DraftOf(w.rows, w.rows.txs[t].op, w'.rows)
    ensures SavesNothing(w, t) && w'.disk.files == w.disk.files
  {
    FreshRunQuiet(w0, steps, w);
    CloneReady(w, t);
    CommitMovesNoFile(w, t, w');
    CloneCommits(w.rows, t);
  }
}
