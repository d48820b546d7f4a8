/** The codes of problems: the unique index holds in every run, for committed rows and for those being inserted. */
module Codes {
  import opened Base
  import opened World
  import opened WorldRuns
  import Rows
  import RowsSafety
  import Validation
  import WorldSafety

  /** A committed problem, or one that an open transaction has inserted. */
  datatype Place = Stored(p: Id) | Pending(t: Id, p: Id)

  ghost predicate HasCode(s: Rows.State, at: Place, code: string) {
    match at
    case Stored(p) => p in s.problems && s.problems[p].code == code
    case Pending(t, p) => t in s.txs && p in s.txs[t].problems && s.txs[t].problems[p].code == code
  }

  ghost predicate CodesUnique(s: Rows.State) {
    forall a: Place, b: Place, code: string :: HasCode(s, a, code) && HasCode(s, b, code) ==> a == b
  }

  /** The statements that insert no problem. */
  lemma {:induction false} SameProblems(s: Rows.State, t: Id, stmt: Rows.Stmt, s': Rows.State)
    requires Rows.Exec(s, t, stmt) == Some(s') && !stmt.SNewProblem?
    ensures t in s.txs && t in s'.txs && s'.txs[t].problems == s.txs[t].problems
  {
  }

  lemma {:induction false} InsertUnique(s: Rows.State, t: Id, row: Rows.Problem, meta: Validation.Meta, s': Rows.State)
    requires CodesUnique(s) && Rows.NewProblem(s, t, row, meta) == Some(s') && s.next !in s.problems
    requires s.txs[t].problems == map[]
    ensures CodesUnique(s')
  {
    forall at: Place, code: string | HasCode(s', at, code)
      ensures if at == Pending(t, s.next) then code == row.code && forall b: Place :: !HasCode(s, b, row.code) else HasCode(s, at, code)
    {
    }
  }

  lemma {:induction false} RunUnique(w: World, t: Id, stmt: Rows.Stmt, w': World)
    requires CodesUnique(w.rows) && WorldSafety.RowsOnly(w, t, w') && Rows.Exec(w.rows, t, stmt) == Some(w'.rows)
    requires RowsSafety.OpOk(w.rows, w.rows.txs[t]) && w.rows.next !in w.rows.problems
    ensures CodesUnique(w'.rows)
  {
    if stmt.SNewProblem? {
      InsertUnique(w.rows, t, stmt.entry, stmt.meta, w'.rows);
    } else {
      SameProblems(w.rows, t, stmt, w'.rows);
      forall at: Place, code: string | HasCode(w'.rows, at, code) ensures HasCode(w.rows, at, code) {}
    }
  }

  lemma {:induction false} CommitUnique(s: Rows.State, t: Id)
    requires CodesUnique(s) && t in s.txs
    ensures CodesUnique(Rows.Commit(s, t))
  {
    var s' := Rows.Commit(s, t);
    forall at: Place, code: string | HasCode(s', at, code) ensures HasCode(s, Was(s, t, at), code) {}
    forall a: Place, b: Place, code: string | HasCode(s', a, code) && HasCode(s', b, code) ensures a == b {
      assert HasCode(s, Was(s, t, a), code) && HasCode(s, Was(s, t, b), code);
    }
  }

  /** Where a row was before the commit of `t`. */
  ghost function Was(s: Rows.State, t: Id, at: Place): Place
    requires t in s.txs
  {
    if at.Stored? && at.p in s.txs[t].problems then Pending(t, at.p) else at
  }

  lemma {:induction false} SingleUnique(s: Rows.State, a: Rows.Single)
    requires CodesUnique(s) && Rows.SingleEnabled(s, a)
    ensures CodesUnique(Rows.SingleApply(s, a))
  {
    var s' := Rows.SingleApply(s, a);
    forall at: Place, code: string | HasCode(s', at, code)
      ensures if a.EditProblem? && at == Stored(a.problem) then code == a.code else HasCode(s, at, code)
    {
    }
  }

  lemma {:induction false} FewerUnique(s: Rows.State, s': Rows.State)
    requires CodesUnique(s) && s'.problems == s.problems
    requires forall t :: t in s'.txs ==> s'.txs[t].problems == map[] || (t in s.txs && s'.txs[t] == s.txs[t])
    ensures CodesUnique(s')
  {
    forall at: Place, code: string | HasCode(s', at, code) ensures HasCode(s, at, code) {}
  }

  lemma {:induction false} QuietUnique(w: World, s: Step, w': World)
    requires CodesUnique(w.rows) && Possible(w, s) && w' == After(w, s) && !s.Run? && !s.Commit? && !s.Alone?
    ensures CodesUnique(w'.rows)
  {
    FewerUnique(w.rows, w'.rows);
  }

  lemma {:induction false} NextIsNew(s: Rows.State, t: Id)
    requires RowsSafety.Inv(s) && t in s.txs
    ensures s.next !in s.problems && RowsSafety.OpOk(s, s.txs[t])
  {
  }

  lemma {:induction false} UniqueStep(w: World, s: Step, w': World)
    requires RowsSafety.Inv(w.rows) && CodesUnique(w.rows) && Possible(w, s) && w' == After(w, s)
    ensures CodesUnique(w'.rows)
  {
    match s
    case Run(t, stmt) => {
      WorldSafety.StmtRowsOnly(w, t, stmt, w');
      NextIsNew(w.rows, t);
      RunUnique(w, t, stmt, w');
    }
    case Commit(t) => CommitUnique(w.rows, t);
    case Alone(a) => SingleUnique(w.rows, a);
    case _ => QuietUnique(w, s, w');
  }

  lemma {:induction false} UniqueRun(w: World, steps: seq<Step>, w': World)
    requires WorldSafety.Inv(w) && CodesUnique(w.rows) && Runs(w, steps, w')
    ensures CodesUnique(w'.rows)
    decreases |steps|
  {
    if steps != [] {
      UniqueStep(w, steps[0], After(w, steps[0]));
      WorldSafety.StepKept(w, steps[0], After(w, steps[0]));
      UniqueRun(After(w, steps[0]), steps[1..], w');
    }
  }

  /** In every reachable state no two problems have the same code, whether created or renamed, one after the other or at once. */
  lemma {:induction false} ProblemCodesAreUnique(w0: World, steps: seq<Step>, w: World, p: Id, q: Id)
    requires Fresh(w0) && Runs(w0, steps, w)
    requires p in w.rows.problems && q in w.rows.problems && w.rows.problems[p].code == w.rows.problems[q].code
    ensures p == q
  {
    FreshIsSafe(w0);
    forall at: Place, code: string ensures !HasCode(w0.rows, at, code) {}
    UniqueRun(w0, steps, w);
    assert HasCode(w.rows, Stored(p), w.rows.problems[p].code) && HasCode(w.rows, Stored(q), w.rows.problems[p].code);
  }
}
