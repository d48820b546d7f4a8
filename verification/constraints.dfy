/** The constraints of internal/db/models.go, row by row, in every state that a run can reach. */
module Constraints {
  import opened Base
  import opened World
  import opened WorldRuns
  import Codes
  import Rows
  import RowsSafety
  import Validation
  import WorldSafety

  // ----- revisions and tests -----

  predicate LimitOk(limit: Option<int>) {
    limit.Some? ==> limit.value >= 1
  }

  /** The checks on the row of a revision, and what validation has let through. */
  ghost predicate RevisionRowOk(doc: Rows.Revision) {
    && doc.number >= 1
    && LimitOk(doc.meta.timeLimit) && LimitOk(doc.meta.memoryLimit)
    && Validation.ByteLength(doc.meta.statement) <= 524288 && Validation.ByteLength(doc.meta.checker) <= 200
    && (doc.state.Published? ==> doc.meta.statement != "" || doc.pdf.Some?)
  }

  /** The checks on the rows of its tests, and their unique positions. */
  ghost predicate TestRowsOk(doc: Rows.Revision) {
    && (forall i :: i in doc.tests ==> TestRowOk(doc.tests[i]))
    && forall i, j :: i in doc.tests && j in doc.tests && i != j ==> doc.tests[i].position != doc.tests[j].position
  }

  predicate TestRowOk(row: Rows.TestCase) {
    row.position >= 0 && (row.points.Some? ==> row.points.value >= 0) && LimitOk(row.limit)
  }

  lemma {:induction false} DocRows(doc: Rows.Revision, parse: Validation.Parser, next: Id)
    requires RowsSafety.DocOk(doc, parse, next)
    ensures RevisionRowOk(doc) && TestRowsOk(doc)
  {
  }

  lemma {:induction false} DocInOrder(s: Rows.State, r: Id)
    requires RowsSafety.Inv(s) && r in s.revs
    ensures RowsSafety.DocOk(s.revs[r], s.parse, s.next) && s.revs[r].problem in s.problems && RowsSafety.Numbered(s.revs)
  {
  }

  /** In every reachable state each revision and each test meets the checks and the unique indexes of its table. */
  lemma {:induction false} EveryRevisionIsInOrder(w0: World, steps: seq<Step>, w: World, r: Id)
    requires Fresh(w0) && Runs(w0, steps, w) && r in w.rows.revs
    ensures RevisionRowOk(w.rows.revs[r]) && TestRowsOk(w.rows.revs[r]) && w.rows.revs[r].problem in w.rows.problems
    ensures forall q :: q in w.rows.revs && q != r && w.rows.revs[q].problem == w.rows.revs[r].problem ==>
      w.rows.revs[q].number != w.rows.revs[r].number
  {
    hide RowsSafety.DocOk;
    FreshIsSafe(w0);
    RunSafe(w0, steps, w);
    DocInOrder(w.rows, r);
    DocRows(w.rows.revs[r], w.rows.parse, w.rows.next);
  }

  // ----- problems -----

  predicate Named(row: Rows.Problem) {
    row.title != "" && row.code != ""
  }

  /** Every problem has a title and a code, and so has every one about to be inserted. */
  ghost predicate ProblemsNamed(s: Rows.State) {
    && (forall p :: p in s.problems ==> Named(s.problems[p]))
    && forall t :: t in s.txs ==> forall p :: p in s.txs[t].problems ==> Named(s.txs[t].problems[p])
  }

  lemma {:induction false} StatementNames(s: Rows.State, t: Id, stmt: Rows.Stmt, s': Rows.State)
    requires ProblemsNamed(s) && Rows.Exec(s, t, stmt) == Some(s')
    requires t in s.txs && t in s'.txs && s'.problems == s.problems && s'.txs == s.txs[t := s'.txs[t]]
    ensures ProblemsNamed(s')
  {
    if !stmt.SNewProblem? { Codes.SameProblems(s, t, stmt, s'); }
  }

  lemma {:induction false} CommitNames(s: Rows.State, t: Id)
    requires ProblemsNamed(s) && t in s.txs
    ensures ProblemsNamed(Rows.Commit(s, t))
  {
  }

  lemma {:induction false} SingleNames(s: Rows.State, a: Rows.Single)
    requires ProblemsNamed(s) && Rows.SingleEnabled(s, a)
    ensures ProblemsNamed(Rows.SingleApply(s, a))
  {
    hide Rows.CodeFree, Rows.ProblemFree;
  }

  lemma {:induction false} QuietNames(w: World, s: Step, w': World)
    requires ProblemsNamed(w.rows) && Possible(w, s) && w' == After(w, s) && !s.Run? && !s.Commit? && !s.Alone?
    ensures ProblemsNamed(w'.rows)
  {
  }

  lemma {:induction false} NamesStep(w: World, s: Step, w': World)
    requires RowsSafety.Inv(w.rows) && ProblemsNamed(w.rows) && Possible(w, s) && w' == After(w, s)
    ensures ProblemsNamed(w'.rows)
  {
    hide RowsSafety.Inv;
    if s.Run? {
      WorldSafety.StmtRowsOnly(w, s.t, s.stmt, w');
      StatementNames(w.rows, s.t, s.stmt, w'.rows);
    }
    else if s.Commit? { CommitNames(w.rows, s.t); }
    else if s.Alone? { SingleNames(w.rows, s.single); }
    else { QuietNames(w, s, w'); }
  }

  lemma {:induction false} NamesRun(w: World, steps: seq<Step>, w': World)
    requires WorldSafety.Inv(w) && ProblemsNamed(w.rows) && Runs(w, steps, w')
    ensures ProblemsNamed(w'.rows)
    decreases |steps|
  {
    if steps != [] {
      NamesStep(w, steps[0], After(w, steps[0]));
      WorldSafety.StepKept(w, steps[0], After(w, steps[0]));
      NamesRun(After(w, steps[0]), steps[1..], w');
    }
  }

  /** In every reachable state every problem has a title and a code. */
  lemma {:induction false} EveryProblemIsNamed(w0: World, steps: seq<Step>, w: World, p: Id)
    requires Fresh(w0) && Runs(w0, steps, w) && p in w.rows.problems
    ensures w.rows.problems[p].title != "" && w.rows.problems[p].code != ""
  {
    FreshIsSafe(w0);
    NamesRun(w0, steps, w);
  }

  // ----- assignments -----

  /** Two problems of a series differ in code and in position; no position is negative and no code is empty. */
  ghost predicate AssignmentsOk(s: Rows.State) {
    && (forall a :: a in s.assigns ==> a < s.next && s.assigns[a].position >= 0 && s.assigns[a].code != "")
    && forall a, b :: a in s.assigns && b in s.assigns && a != b && s.assigns[a].series == s.assigns[b].series ==>
         s.assigns[a].code != s.assigns[b].code && s.assigns[a].position != s.assigns[b].position
  }

  lemma {:induction false} SingleOk(s: Rows.State, a: Rows.Single)
    requires AssignmentsOk(s) && Rows.SingleEnabled(s, a)
    ensures AssignmentsOk(Rows.SingleApply(s, a))
  {
    hide Rows.CodeFree, Rows.ProblemFree;
  }

  lemma {:induction false} QuietAssigns(w: World, s: Step, w': World)
    requires Possible(w, s) && w' == After(w, s) && !s.Run? && !s.Alone?
    ensures w'.rows.assigns == w.rows.assigns && w'.rows.next == w.rows.next
  {
  }

  lemma {:induction false} AssignmentsStep(w: World, s: Step, w': World)
    requires RowsSafety.Inv(w.rows) && AssignmentsOk(w.rows) && Possible(w, s) && w' == After(w, s)
    ensures AssignmentsOk(w'.rows)
  {
    hide RowsSafety.Inv;
    if s.Run? {
      WorldSafety.StmtRowsOnly(w, s.t, s.stmt, w');
      RowsSafety.StmtInOrder(w.rows, s.t, s.stmt, w'.rows);
    }
    else if s.Alone? { SingleOk(w.rows, s.single); }
    else { QuietAssigns(w, s, w'); }
  }

  lemma {:induction false} AssignmentsRun(w: World, steps: seq<Step>, w': World)
    requires WorldSafety.Inv(w) && AssignmentsOk(w.rows) && Runs(w, steps, w')
    ensures AssignmentsOk(w'.rows)
    decreases |steps|
  {
    if steps != [] {
      AssignmentsStep(w, steps[0], After(w, steps[0]));
      WorldSafety.StepKept(w, steps[0], After(w, steps[0]));
      AssignmentsRun(After(w, steps[0]), steps[1..], w');
    }
  }

  /** In every reachable state the codes and the positions within a series are unique, however assignments come, go and move. */
  lemma {:induction false} EverySeriesIsInOrder(w0: World, steps: seq<Step>, w: World)
    requires Fresh(w0) && Runs(w0, steps, w)
    ensures AssignmentsOk(w.rows)
  {
    FreshIsSafe(w0);
    AssignmentsRun(w0, steps, w);
  }
}
