/**
  What an import amounts to when it commits, and that no preview is imported twice.
*/
module ImportRuns {
  import opened Base
  import opened World
  import opened WorldSafety
  import opened WorldRuns
  import opened Imports
  import DiskSafety
  import Importer
  import Rows
  import RowsSafety
  import RowsCommit

  // ----- positions -----

  /** The tests of a revision, listed by position. */
  ghost predicate InOrder(tests: map<Id, Rows.TestCase>, order: seq<Id>) {
    && (forall i :: i in tests <==> i in order)
    && (forall j, k :: 0 <= j < k < |order| ==> tests[order[j]].position < tests[order[k]].position)
  }

  /** Imported tests come after all the tests there were, in the order of their pairs. */
  lemma AppendedInOrder(was: map<Id, Rows.TestCase>, now: map<Id, Rows.TestCase>, base: int, ids: seq<Id>, order: seq<Id>)
    requires InOrder(was, order) && RowsSafety.Appended(was, now, base, ids) && Rows.IsMaxPosition(was, base)
    ensures InOrder(now, order + ids)
  {
  }

  lemma {:induction false} OrderExists(tests: map<Id, Rows.TestCase>) returns (order: seq<Id>)
    requires RowsSafety.PositionsUnique(tests)
    ensures InOrder(tests, order)
    decreases |tests|
  {
    if tests == map[] {
      order := [];
    } else {
      var last := LastTest(tests);
      var rest := tests - {last};
      order := OrderExists(rest);
      var all := order + [last];
      forall j, k | 0 <= j < k < |all| ensures tests[all[j]].position < tests[all[k]].position {
        assert all[j] in rest && tests[all[j]].position <= tests[last].position;
        if k < |order| { assert all[k] in rest; }
      }
      forall i ensures i in tests <==> i in all { assert i in all <==> i in order || i == last; }
      order := all;
    }
  }

  lemma {:induction false} LastTest(tests: map<Id, Rows.TestCase>) returns (last: Id)
    requires tests != map[]
    ensures last in tests && forall i :: i in tests ==> tests[i].position <= tests[last].position
    decreases |tests|
  {
    var any :| any in tests;
    var rest := tests - {any};
    if rest == map[] {
      last := any;
      assert forall i :: i in tests && i != any ==> i in rest;
    } else {
      last := LastTest(rest);
      if tests[any].position > tests[last].position { last := any; }
      assert forall i :: i in tests && i != any ==> i in rest;
    }
  }

  // ----- the commit of an import -----

  ghost predicate ImportCommits(w: World, s: Step, p: Id) {
    s.Commit? && s.t in w.rows.txs && w.rows.txs[s.t].op.Imported? && w.rows.txs[s.t].op.preview == p
  }

  /** A new test has the content of its pair, a position of its own, and the defaults elsewhere. */
  ghost predicate TestOfPair(w: World, row: Rows.TestCase, position: int, pair: Importer.TestPair) {
    && RowsSafety.IsImported(row, position)
    && row.input in w.disk.arts && w.disk.arts[row.input].digest == pair.input
    && row.output in w.disk.arts && w.disk.arts[row.output].digest == pair.output
  }

  /**
    The tables after the commit of an import: its preview, which was not marked, is marked, and its revision
    has other tests; nothing else has changed.
  */
  ghost predicate TablesAfterImport(s: Rows.State, op: Rows.Op, s': Rows.State)
    requires op.Imported?
  {
    var r, p := op.rev, op.preview;
    && p in s.previews && p in s'.previews && r in s.revs && r in s'.revs
    && s.previews[p].committed.None? && s'.previews[p].committed.Some?
    && s'.previews == s.previews[p := s.previews[p].(committed := s'.previews[p].committed)]
    && s'.revs == s.revs[r := s.revs[r].(tests := s'.revs[r].tests)]
    && s'.problems == s.problems && s'.assigns == s.assigns
  }

  /** The tests of the revision are the old ones followed by one per pair of the archive, in the order of the pairs. */
  ghost predicate TestsAfterImport(w: World, op: Rows.Op, w': World, order: seq<Id>)
    requires op.Imported? && TablesAfterImport(w.rows, op, w'.rows)
  {
    var was, now, archive := w.rows.revs[op.rev].tests, w'.rows.revs[op.rev].tests, w.rows.previews[op.preview].artifact;
    && archive in w.disk.arts && Reads(w, w.disk.arts[archive].digest, op.pairs)
    && InOrder(was, order) && InOrder(now, order + op.ids)
    && (forall i :: i in was ==> i in now && now[i] == was[i])
    && |op.ids| == |op.pairs|
    && (if was == map[] then op.base == -1 else exists i :: i in was && was[i].position == op.base)
    && (forall i :: i in was ==> was[i].position <= op.base)
    && forall k :: 0 <= k < |op.ids| ==> op.ids[k] in now && TestOfPair(w', now[op.ids[k]], op.base + 1 + k, op.pairs[k])
  }

  ghost predicate ImportedExactly(w: World, t: Id, w': World, order: seq<Id>)
    requires IsImport(w, t) && w.rows.txs[t].op.Imported?
  {
    TablesAfterImport(w.rows, w.rows.txs[t].op, w'.rows) && TestsAfterImport(w, w.rows.txs[t].op, w', order)
  }

  /** What an import that is about to commit may write: its revision and the mark. */
  lemma {:induction false} ImportedTx(s: Rows.State, x: Rows.Tx)
    requires x.op.Imported? && RowsSafety.TxOk(s, x) && x.op.preview in s.previews
    ensures x.problems == map[] && x.expired == {} && x.revs.Keys <= {x.op.rev} && x.previews.Keys == {x.op.preview}
    ensures RowsSafety.ImportOk(s, x) && RowsSafety.MarkOk(s, x)
  {
    hide RowsSafety.DocsOk, RowsSafety.Appended, Rows.IsMaxPosition;
  }

  lemma {:induction false} NothingAppended(tests: map<Id, Rows.TestCase>, base: int)
    ensures RowsSafety.Appended(tests, tests, base, [])
  {
  }

  /** Into a draft without tests, the k-th pair is imported at position k. */
  lemma {:induction false} FirstImportStartsAtZero(w: World, t: Id, w': World, order: seq<Id>)
    requires IsImport(w, t) && w.rows.txs[t].op.Imported? && ImportedExactly(w, t, w', order)
    requires w.rows.revs[w.rows.txs[t].op.rev].tests == map[]
    ensures var op := w.rows.txs[t].op;
            forall k :: 0 <= k < |op.pairs| ==>
              && op.ids[k] in w'.rows.revs[op.rev].tests
              && var row := w'.rows.revs[op.rev].tests[op.ids[k]];
                 && row.position == k && !row.sample && row.points.None? && row.limit.None?
                 && row.input in w'.disk.arts && w'.disk.arts[row.input].digest == op.pairs[k].input
                 && row.output in w'.disk.arts && w'.disk.arts[row.output].digest == op.pairs[k].output
  {
    var op := w.rows.txs[t].op;
    forall k | 0 <= k < |op.pairs|
      ensures op.ids[k] in w'.rows.revs[op.rev].tests && w'.rows.revs[op.rev].tests[op.ids[k]].position == k
    {
      assert TestOfPair(w', w'.rows.revs[op.rev].tests[op.ids[k]], op.base + 1 + k, op.pairs[k]);
    }
  }

  lemma ImportedTables(s: Rows.State, t: Id)
    requires t in s.txs && s.txs[t].op.Imported? && RowsSafety.TxOk(s, s.txs[t]) && s.txs[t].op.preview in s.previews
    ensures var s', op := Rows.Commit(s, t), s.txs[t].op;
            && TablesAfterImport(s, op, s')
            && RowsSafety.Appended(s.revs[op.rev].tests, s'.revs[op.rev].tests, op.base, op.ids)
  {
    hide RowsSafety.Locked, RowsSafety.DocsOk, RowsSafety.OpOk, RowsSafety.Appended, Rows.IsMaxPosition;
    ImportedTx(s, s.txs[t]);
    NothingAppended(s.revs[s.txs[t].op.rev].tests, s.txs[t].op.base);
  }

  lemma ImportIsExact(w: World, t: Id, w': World, order: seq<Id>)
    requires IsImport(w, t) && Sourced(w, t) && PairsSaved(w, t) && DiskSafety.Ids(w.disk) && Commits(w, t, w')
    requires w.rows.txs[t].op.Imported? && RowsSafety.TxOk(w.rows, w.rows.txs[t])
    requires w.rows.txs[t].op.rev in w.rows.revs && InOrder(w.rows.revs[w.rows.txs[t].op.rev].tests, order)
    ensures ImportedExactly(w, t, w', order)
  {
    var x := w.rows.txs[t];
    ImportComplete(w.rows, x);
    ImportedTables(w.rows, t);
    AppendedInOrder(w.rows.revs[x.op.rev].tests, w'.rows.revs[x.op.rev].tests, x.op.base, x.op.ids, order);
    ImportedContents(w, t, w');
  }

  lemma ImportedContents(w: World, t: Id, w': World)
    requires DiskSafety.Ids(w.disk) && IsImport(w, t) && PairsSaved(w, t) && Commits(w, t, w')
    requires w.rows.txs[t].op.rev in w.rows.revs && |w.rows.txs[t].op.ids| == |w.rows.txs[t].op.pairs|
    requires var op := w.rows.txs[t].op;
             RowsSafety.Appended(w.rows.revs[op.rev].tests, w'.rows.revs[op.rev].tests, op.base, op.ids)
    ensures var op, now := w.rows.txs[t].op, w'.rows.revs[w.rows.txs[t].op.rev].tests;
            forall k :: 0 <= k < |op.ids| ==> op.ids[k] in now && TestOfPair(w', now[op.ids[k]], op.base + 1 + k, op.pairs[k])
  {
  }

  lemma ImportComplete(s: Rows.State, x: Rows.Tx)
    requires x.op.Imported? && RowsSafety.OpOk(s, x)
    ensures |x.op.ids| == |x.op.pairs| && x.op.rev in s.revs && Rows.IsMaxPosition(s.revs[x.op.rev].tests, x.op.base)
  {
  }

  lemma {:induction false} ImportReady(w: World, t: Id)
    requires Good(w) && IsImport(w, t) && w.rows.txs[t].op.Imported?
    ensures Sourced(w, t) && PairsSaved(w, t) && DiskSafety.Ids(w.disk) && RowsSafety.TxOk(w.rows, w.rows.txs[t])
    ensures w.rows.txs[t].op.rev in w.rows.revs
  {
    ImportComplete(w.rows, w.rows.txs[t]);
  }

  lemma {:induction false} CommitsWhole(w: World, t: Id, w': World)
    requires IsImport(w, t) && Possible(w, Step.Commit(t)) && w' == After(w, Step.Commit(t))
    ensures w.rows.txs[t].op.Imported? && Commits(w, t, w')
  {
  }

  /**
    In every run, an import whose transaction commits is complete, and has brought in the whole archive, in name
    order, exactly.
  */
  lemma {:induction false} EveryImportIsExact(w0: World, steps: seq<Step>, w: World, t: Id, w': World, order: seq<Id>)
    requires Fresh(w0) && Runs(w0, steps, w)
    requires IsImport(w, t) && Possible(w, Step.Commit(t)) && w' == After(w, Step.Commit(t))
    requires w.rows.txs[t].op.rev in w.rows.revs ==> InOrder(w.rows.revs[w.rows.txs[t].op.rev].tests, order)
    ensures w.rows.txs[t].op.Imported? && ImportedExactly(w, t, w', order)
  {
    CommitsWhole(w, t, w');
    FreshIsGood(w0);
    GoodRun(w0, steps, w);
    ImportReady(w, t);
    ImportIsExact(w, t, w', order);
  }

  // ----- at most once -----

  /** The preview has been imported: it is marked, or gone for good. */
  ghost predicate Spent(w: World, p: Id) {
    && p < w.rows.next
    && (p in w.rows.previews ==> w.rows.previews[p].committed.Some?)
    && (p !in w.rows.previews ==> forall t: Id :: !HasPending(w, t, p))
    && (forall t: Id :: IsImport(w, t) ==> w.rows.txs[t].op.preview != p)
  }

  lemma {:induction false} ImportSpends(w: World, t: Id, w': World, p: Id)
    requires Good(w) && ImportCommits(w, Commit(t), p) && Commits(w, t, w')
    ensures Spent(w', p)
  {
    assert IsImport(w, t) && Sourced(w, t) && RowsSafety.TxOk(w.rows, w.rows.txs[t]);
    ImportedTables(w.rows, t);
    forall u: Id | IsImport(w', u) ensures w'.rows.txs[u].op.preview != p {
      assert IsImport(w, u) && Sourced(w, u) && RowsSafety.Apart(w.rows.txs[t], w.rows.txs[u]);
      if w.rows.txs[u].op.preview == p { OneImport(w, t, u, p); }
    }
  }

  lemma OneImport(w: World, t: Id, u: Id, p: Id)
    requires RowsSafety.Inv(w.rows) && IsImport(w, t) && IsImport(w, u) && p in w.rows.previews
    requires w.rows.txs[t].op.preview == p && w.rows.txs[u].op.preview == p
    ensures t == u
  {
    if t != u { RowsSafety.SamePreviewSameLock(w.rows, w.rows.txs[t], w.rows.txs[u], p); }
  }

  lemma NoNewImport(s: Rows.State, t: Id, stmt: Rows.Stmt, s': Rows.State, p: Id)
    requires Rows.Exec(s, t, stmt) == Some(s') && t in s.txs && t in s'.txs && Rows.ImportsPreview(s'.txs[t], p)
    ensures Rows.ImportsPreview(s.txs[t], p) || (p in s.previews && s.previews[p].committed.None?)
  {
  }

  lemma NewPending(s: Rows.State, t: Id, stmt: Rows.Stmt, s': Rows.State, p: Id)
    requires Rows.Exec(s, t, stmt) == Some(s') && t in s.txs && t in s'.txs && p in s'.txs[t].previews
    ensures p in s.txs[t].previews || p == s.next || p in s.previews
  {
  }

  lemma SpentByStmt(w: World, t: Id, stmt: Rows.Stmt, w': World, p: Id)
    requires Spent(w, p) && RowsOnly(w, t, w') && Rows.Exec(w.rows, t, stmt) == Some(w'.rows) && w.rows.next <= w'.rows.next
    ensures Spent(w', p)
  {
    forall u: Id | IsImport(w', u) ensures w'.rows.txs[u].op.preview != p {
      if u == t && Rows.ImportsPreview(w'.rows.txs[t], p) {
        NoNewImport(w.rows, t, stmt, w'.rows, p);
        assert IsImport(w, t);
      } else if u != t {
        assert IsImport(w, u);
      }
    }
    forall u: Id | p !in w'.rows.previews ensures !HasPending(w', u, p) {
      assert !HasPending(w, u, p);
      if u == t && HasPending(w', t, p) { NewPending(w.rows, t, stmt, w'.rows, p); }
    }
  }

  lemma SpentByCommit(w: World, t: Id, w': World, p: Id)
    requires RowsSafety.Inv(w.rows) && Spent(w, p) && t in w.rows.txs && w'.rows == Rows.Commit(w.rows, t)
    ensures Spent(w', p)
  {
    var x := w.rows.txs[t];
    assert RowsSafety.TxOk(w.rows, x);
    if p in x.previews && p in w.rows.previews { OnlyMarked(w.rows, x, p); }
    if p in x.previews { assert HasPending(w, t, p); }
    forall u: Id | IsImport(w', u) ensures w'.rows.txs[u].op.preview != p { assert IsImport(w, u); }
    forall u: Id | p !in w'.rows.previews ensures !HasPending(w', u, p) {
      if HasPending(w', u, p) {
        assert HasPending(w, u, p);
        PendingNotExpired(w, t, u, p);
      }
    }
  }

  lemma PendingNotExpired(w: World, t: Id, u: Id, p: Id)
    requires RowsSafety.Inv(w.rows) && t in w.rows.txs && u != t && HasPending(w, u, p)
    ensures p !in w.rows.txs[t].expired
  {
    assert RowsSafety.Apart(w.rows.txs[u], w.rows.txs[t]);
    assert Rows.LocksPreview(w.rows.txs[u], p);
    assert !Rows.LocksPreview(w.rows.txs[t], p);
  }

  /** Steps that leave the previews alone and start no transaction with anything pending. */
  lemma SpentQuietly(w: World, w': World, p: Id)
    requires Spent(w, p) && w'.rows.previews == w.rows.previews && w.rows.next <= w'.rows.next
    requires forall t :: t in w'.rows.txs ==>
      (t in w.rows.txs && w'.rows.txs[t] == w.rows.txs[t]) || w'.rows.txs[t] == Rows.Tx(Rows.Fresh, map[], map[], map[], {})
    ensures Spent(w', p)
  {
    forall u: Id | IsImport(w', u) ensures w'.rows.txs[u].op.preview != p { assert IsImport(w, u); }
    forall u: Id | p !in w'.rows.previews ensures !HasPending(w', u, p) { assert !HasPending(w, u, p); }
  }

  lemma SpentStays(w: World, s: Step, w': World, p: Id)
    requires Inv(w) && Possible(w, s) && w' == After(w, s) && Spent(w, p)
    ensures Spent(w', p)
  {
    match s
    case Run(t, stmt) => {
      StmtRowsOnly(w, t, stmt, w');
      RowsSafety.StmtInOrder(w.rows, t, stmt, w'.rows);
      SpentByStmt(w, t, stmt, w', p);
    }
    case Commit(t) => SpentByCommit(w, t, w', p);
    case Alone(a) => { RowsCommit.SingleShape(w.rows, a, w'.rows); SpentQuietly(w, w', p); }
    case _ => SpentQuietly(w, w', p);
  }

  /** How often a run commits an import of the preview. */
  ghost function TimesImported(w: World, steps: seq<Step>, p: Id): nat
    decreases |steps|
  {
    if steps == [] || !Possible(w, steps[0]) then 0
    else (if ImportCommits(w, steps[0], p) then 1 else 0) + TimesImported(After(w, steps[0]), steps[1..], p)
  }

  lemma {:induction false} SpentIsNeverImported(w: World, steps: seq<Step>, w': World, p: Id)
    requires Good(w) && Runs(w, steps, w') && Spent(w, p)
    ensures TimesImported(w, steps, p) == 0
    decreases |steps|
  {
    if steps != [] {
      var s := steps[0];
      if ImportCommits(w, s, p) { assert IsImport(w, s.t); }
      GoodStep(w, s, After(w, s));
      SpentStays(w, s, After(w, s), p);
      SpentIsNeverImported(After(w, s), steps[1..], w', p);
    }
  }

  /** Repeated or concurrent commits of one preview import it at most once. */
  lemma {:induction false} ImportedAtMostOnce(w: World, steps: seq<Step>, w': World, p: Id)
    requires Good(w) && Runs(w, steps, w')
    ensures TimesImported(w, steps, p) <= 1
    decreases |steps|
  {
    if steps != [] {
      var s, w1 := steps[0], After(w, steps[0]);
      GoodStep(w, s, w1);
      if ImportCommits(w, s, p) {
        ImportSpends(w, s.t, w1, p);
        SpentIsNeverImported(w1, steps[1..], w', p);
      } else {
        ImportedAtMostOnce(w1, steps[1..], w', p);
      }
    }
  }
}
