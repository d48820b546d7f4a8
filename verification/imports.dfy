/**
  ZIP imports over whole runs: a preview is imported at most once, all of it or none, and what is
  imported is the content of the archive it was made from, behind the tests that were there.
*/
module Imports {
  import opened Base
  import opened World
  import opened WorldSafety
  import opened WorldRuns
  import Disk
  import DiskSafety
  import Importer
  import Rows
  import RowsSafety
  import RowsCommit

  // ----- what is true of previews and imports at every moment -----

  ghost predicate ArchiveReadable(w: World, p: Id) {
    p in w.rows.previews ==>
      && w.rows.previews[p].artifact in w.disk.arts
      && Importer.Readable(w.disk.arts[w.rows.previews[p].artifact].digest, w.limits, w.decode)
  }

  ghost predicate HasPending(w: World, t: Id, p: Id) {
    t in w.rows.txs && p in w.rows.txs[t].previews
  }

  ghost predicate PendingReadable(w: World, t: Id, p: Id)
    requires HasPending(w, t, p)
  {
    var id := w.rows.txs[t].previews[p].artifact;
    (id in w.disk.arts || Saved(w, t, id)) && Importer.Readable(Content(w, t, id), w.limits, w.decode)
  }

  ghost predicate IsImport(w: World, t: Id) {
    t in w.rows.txs && (w.rows.txs[t].op.Importing? || w.rows.txs[t].op.Imported?)
  }

  /** The test inserted for a pair has the content of that pair. */
  ghost predicate PairSaved(w: World, t: Id, tests: map<Id, Rows.TestCase>, id: Id, pair: Importer.TestPair) {
    id in tests && Saved(w, t, tests[id].input) && Saved(w, t, tests[id].output) && Holds(w, t, tests[id].input, tests[id].output, pair)
  }

  ghost predicate PairsSaved(w: World, t: Id)
    requires IsImport(w, t)
  {
    var x := w.rows.txs[t];
    x.op.ids != [] ==>
      && x.op.rev in x.revs && |x.op.ids| <= |x.op.pairs|
      && forall k :: 0 <= k < |x.op.ids| ==> PairSaved(w, t, x.revs[x.op.rev].tests, x.op.ids[k], x.op.pairs[k])
  }

  /** The preview an import is reading is there, and was not expired when the import began. */
  ghost predicate Sourced(w: World, t: Id)
    requires IsImport(w, t)
  {
    var op := w.rows.txs[t].op;
    && t in w.disk.txs && op.preview in w.rows.previews
    && w.disk.txs[t].begun < w.rows.previews[op.preview].expires
    && w.rows.previews[op.preview].artifact in w.disk.arts
    && Reads(w, w.disk.arts[w.rows.previews[op.preview].artifact].digest, op.pairs)
  }

  ghost predicate Archives(w: World) {
    && (forall p: Id :: ArchiveReadable(w, p))
    && (forall t: Id, p: Id :: HasPending(w, t, p) ==> PendingReadable(w, t, p))
  }

  ghost predicate ImportsOk(w: World) {
    forall t: Id :: IsImport(w, t) ==> Sourced(w, t) && PairsSaved(w, t)
  }

  ghost predicate Good(w: World) {
    Inv(w) && Archives(w) && ImportsOk(w)
  }

  lemma FreshIsGood(w: World)
    requires Fresh(w)
    ensures Good(w)
  {
  }

  // ----- steps that commit nothing -----

  /** Committed rows stay, and the other transactions keep what they have. */
  ghost predicate Steady(w: World, w': World) {
    && w'.disk.arts == w.disk.arts && w'.rows.previews == w.rows.previews && w'.limits == w.limits && w'.decode == w.decode
  }

  /** The transaction has at least the saves it had, on the same clock. */
  ghost predicate SameTx(w: World, w': World, t: Id) {
    && t in w.rows.txs && t in w'.rows.txs && w'.rows.txs[t] == w.rows.txs[t]
    && t in w.disk.txs && t in w'.disk.txs && w'.disk.txs[t].begun == w.disk.txs[t].begun
    && Extends(w.disk.txs[t].saved, w'.disk.txs[t].saved)
  }

  lemma PendingSteady(w: World, w': World, t: Id, p: Id)
    requires Steady(w, w') && SameTx(w, w', t) && HasPending(w, t, p) && PendingReadable(w, t, p)
    ensures PendingReadable(w', t, p)
  {
  }

  lemma ImportSteady(w: World, w': World, t: Id)
    requires Steady(w, w') && SameTx(w, w', t) && IsImport(w, t) && Sourced(w, t) && PairsSaved(w, t)
    ensures Sourced(w', t) && PairsSaved(w', t)
  {
  }

  lemma {:induction false} SteadyKept(w: World, w': World, own: set<Id>)
    requires Archives(w) && ImportsOk(w) && Steady(w, w')
    requires forall t :: t in w'.rows.txs ==> t in own || SameTx(w, w', t)
    requires forall t, p: Id :: t in own && HasPending(w', t, p) ==> PendingReadable(w', t, p)
    requires forall t :: t in own && IsImport(w', t) ==> Sourced(w', t) && PairsSaved(w', t)
    ensures Archives(w') && ImportsOk(w')
  {
    forall p: Id ensures ArchiveReadable(w', p) { assert ArchiveReadable(w, p); }
    forall t: Id, p: Id | HasPending(w', t, p) ensures PendingReadable(w', t, p) {
      if t !in own { assert HasPending(w, t, p); PendingSteady(w, w', t, p); }
    }
    forall t: Id | IsImport(w', t) ensures Sourced(w', t) && PairsSaved(w', t) {
      if t !in own { assert IsImport(w, t); ImportSteady(w, w', t); }
    }
  }

  lemma {:induction false} StoreKept(w: World, w': World)
    requires Archives(w) && ImportsOk(w) && SameTxs(w) && StoreOnly(w, w') && w'.limits == w.limits && w'.decode == w.decode
    ensures Archives(w') && ImportsOk(w')
  {
    SteadyKept(w, w', {});
  }

  // ----- statements -----

  lemma {:induction false} AddedReadable(w: World, t: Id, stmt: Rows.Stmt, w': World, p: Id)
    requires Archives(w) && stmt.SAddPreview? && Warranted(w, t, stmt)
    requires Rows.Exec(w.rows, t, stmt) == Some(w'.rows) && w' == w.(rows := w'.rows) && HasPending(w', t, p)
    ensures PendingReadable(w', t, p)
  {
    if p != w.rows.next { assert HasPending(w, t, p); }
  }

  lemma {:induction false} MarkedReadable(w: World, t: Id, stmt: Rows.Stmt, w': World, p: Id)
    requires Archives(w) && stmt.SFinishImport?
    requires Rows.Exec(w.rows, t, stmt) == Some(w'.rows) && w' == w.(rows := w'.rows) && HasPending(w', t, p)
    ensures PendingReadable(w', t, p)
  {
    assert ArchiveReadable(w, p);
  }

  lemma {:induction false} StmtReadable(w: World, t: Id, stmt: Rows.Stmt, w': World, p: Id)
    requires Archives(w) && Warranted(w, t, stmt)
    requires Rows.Exec(w.rows, t, stmt) == Some(w'.rows) && w' == w.(rows := w'.rows) && HasPending(w', t, p)
    ensures PendingReadable(w', t, p)
  {
    if stmt.SAddPreview? { AddedReadable(w, t, stmt, w', p); }
    else if stmt.SFinishImport? { MarkedReadable(w, t, stmt, w', p); }
    else {
      SamePreviews(w.rows, t, stmt, w'.rows);
      assert HasPending(w, t, p);
    }
  }

  lemma StartSourced(w: World, t: Id, stmt: Rows.Stmt, w': World)
    requires DiskSafety.AllBacked(w.disk) && SameTxs(w) && stmt.SStartImport? && Warranted(w, t, stmt)
    requires Rows.Exec(w.rows, t, stmt) == Some(w'.rows) && w' == w.(rows := w'.rows)
    ensures IsImport(w', t) && Sourced(w', t) && PairsSaved(w', t)
  {
    RowOnFile(w, w.rows.previews[stmt.preview].artifact);
  }

  lemma {:induction false} PairSourced(w: World, t: Id, stmt: Rows.Stmt, w': World)
    requires stmt.SImportPair? && Rows.Exec(w.rows, t, stmt) == Some(w'.rows) && w' == w.(rows := w'.rows)
    requires IsImport(w, t) && Sourced(w, t)
    ensures IsImport(w', t) && Sourced(w', t)
  {
    hide Importer.Readable, Importer.IsPairing;
  }

  lemma PairAdded(w: World, t: Id, stmt: Rows.Stmt, w': World)
    requires stmt.SImportPair? && Warranted(w, t, stmt)
    requires Rows.Exec(w.rows, t, stmt) == Some(w'.rows) && w' == w.(rows := w'.rows)
    requires IsImport(w, t) && Sourced(w, t) && PairsSaved(w, t)
    requires IdsBelow(w, t)
    ensures IsImport(w', t) && Sourced(w', t) && PairsSaved(w', t)
  {
    hide Importer.Readable, Importer.IsPairing;
    PairSourced(w, t, stmt, w');
    hide Sourced;
    var x, x' := w.rows.txs[t], w'.rows.txs[t];
    forall k | 0 <= k < |x'.op.ids| ensures PairSaved(w', t, x'.revs[x.op.rev].tests, x'.op.ids[k], x'.op.pairs[k]) {
      if k < |x.op.ids| { assert PairSaved(w, t, x.revs[x.op.rev].tests, x.op.ids[k], x.op.pairs[k]) && x.op.ids[k] < w.rows.next; }
    }
  }

  ghost predicate IdsBelow(w: World, t: Id)
    requires IsImport(w, t)
  {
    forall k :: 0 <= k < |w.rows.txs[t].op.ids| ==> w.rows.txs[t].op.ids[k] < w.rows.next
  }

  lemma ImportIdsBelow(w: World, t: Id)
    requires IsImport(w, t) && RowsSafety.TxOk(w.rows, w.rows.txs[t]) && PairsSaved(w, t)
    ensures IdsBelow(w, t)
  {
  }

  lemma FinishSourced(w: World, t: Id, stmt: Rows.Stmt, w': World)
    requires stmt.SFinishImport? && Rows.Exec(w.rows, t, stmt) == Some(w'.rows) && w' == w.(rows := w'.rows)
    requires IsImport(w, t) && Sourced(w, t) && PairsSaved(w, t)
    ensures IsImport(w', t) && Sourced(w', t) && PairsSaved(w', t)
  {
  }

  predicate ImportStmt(stmt: Rows.Stmt) {
    stmt.SStartImport? || stmt.SImportPair? || stmt.SFinishImport?
  }

  lemma OnlyImportStmts(s: Rows.State, t: Id, stmt: Rows.Stmt, s': Rows.State)
    requires Rows.Exec(s, t, stmt) == Some(s') && !ImportStmt(stmt)
    ensures t in s'.txs && !s'.txs[t].op.Importing? && !s'.txs[t].op.Imported?
  {
  }

  lemma AlreadyImporting(w: World, t: Id, stmt: Rows.Stmt, s': Rows.State)
    requires (stmt.SImportPair? || stmt.SFinishImport?) && Rows.Exec(w.rows, t, stmt) == Some(s')
    ensures IsImport(w, t)
  {
  }

  lemma StmtImports(w: World, t: Id, stmt: Rows.Stmt, w': World)
    requires DiskSafety.AllBacked(w.disk) && SameTxs(w) && ImportsOk(w) && Warranted(w, t, stmt)
    requires t in w.rows.txs && RowsSafety.TxOk(w.rows, w.rows.txs[t])
    requires Rows.Exec(w.rows, t, stmt) == Some(w'.rows) && w' == w.(rows := w'.rows)
    ensures IsImport(w', t) ==> Sourced(w', t) && PairsSaved(w', t)
  {
    if ImportStmt(stmt) {
      if stmt.SStartImport? { StartSourced(w, t, stmt, w'); }
      else {
        AlreadyImporting(w, t, stmt, w'.rows);
        if stmt.SImportPair? {
          ImportIdsBelow(w, t);
          PairAdded(w, t, stmt, w');
        } else {
          FinishSourced(w, t, stmt, w');
        }
      }
    } else {
      OnlyImportStmts(w.rows, t, stmt, w'.rows);
    }
  }

  lemma {:induction false} RunGood(w: World, t: Id, stmt: Rows.Stmt, w': World)
    requires Archives(w) && ImportsOk(w) && SameTxs(w) && DiskSafety.AllBacked(w.disk)
    requires RowsOnly(w, t, w') && RowsSafety.TxOk(w.rows, w.rows.txs[t])
    requires Warranted(w, t, stmt) && Rows.Exec(w.rows, t, stmt) == Some(w'.rows)
    ensures Archives(w') && ImportsOk(w')
  {
    hide Rows.Exec, Warranted, Sourced, PairsSaved, Steady, SameTx, RowsSafety.TxOk;
    forall p: Id | HasPending(w', t, p) ensures PendingReadable(w', t, p) { StmtReadable(w, t, stmt, w', p); }
    StmtImports(w, t, stmt, w');
    OnlyOwn(w, t, w');
    SteadyKept(w, w', {t});
  }

  lemma OnlyOwn(w: World, t: Id, w': World)
    requires SameTxs(w) && RowsOnly(w, t, w')
    ensures Steady(w, w') && forall u :: u in w'.rows.txs ==> u in {t} || SameTx(w, w', u)
  {
  }

  // ----- commits -----

  /** Content that a later holder still refers to has not changed. */
  lemma ContentKept(w: World, t: Id, w': World, u: Id, id: Id)
    requires DiskSafety.Ids(w.disk) && Disk.Enabled(w.disk, Disk.Commit(t)) && w'.disk == Disk.Apply(w.disk, Disk.Commit(t))
    requires (id in w.disk.arts || Saved(w, u, id)) && !Doomed(w, t, id)
    ensures u != t ==> (id in w'.disk.arts || Saved(w', u, id)) && Content(w', u, id) == Content(w, u, id)
    ensures u == t ==> id in w'.disk.arts && w'.disk.arts[id].digest == Content(w, u, id)
  {
    if Saved(w, u, id) { assert DiskSafety.Saves(w.disk, u, id); }
    if Saved(w, t, id) { assert DiskSafety.Saves(w.disk, t, id); }
  }

  ghost predicate Commits(w: World, t: Id, w': World) {
    && Disk.Enabled(w.disk, Disk.Commit(t)) && t in w.rows.txs
    && w' == w.(disk := Disk.Apply(w.disk, Disk.Commit(t)), rows := Rows.Commit(w.rows, t))
  }

  lemma {:induction false} CommitArchive(w: World, t: Id, w': World, p: Id)
    requires RefsSafe(w) && DiskSafety.Ids(w.disk) && Archives(w) && Commits(w, t, w')
    ensures ArchiveReadable(w', p)
  {
    if p in w'.rows.previews {
      var id := w'.rows.previews[p].artifact;
      WasReferred(w, t, w', Archive(p), id);
      assert Safe(w, Was(w, t, Archive(p)), id) && !Doomed(w, t, id);
      if p in w.rows.txs[t].previews {
        assert HasPending(w, t, p);
        ContentKept(w, t, w', t, id);
      } else {
        assert ArchiveReadable(w, p);
        ContentKept(w, t, w', t, id);
      }
    }
  }

  lemma {:induction false} CommitPending(w: World, t: Id, w': World, u: Id, p: Id)
    requires RefsSafe(w) && DiskSafety.Ids(w.disk) && Archives(w) && Commits(w, t, w') && HasPending(w', u, p)
    ensures PendingReadable(w', u, p)
  {
    var id := w.rows.txs[u].previews[p].artifact;
    assert HasPending(w, u, p) && Refers(w, PendingArchive(u, p), id) && Safe(w, PendingArchive(u, p), id);
    ContentKept(w, t, w', u, id);
  }

  /** The row of the archive being imported from outlives the commit of another transaction. */
  lemma {:induction false} ArchiveKept(w: World, t: Id, w': World, p: Id)
    requires RefsSafe(w) && DiskSafety.Ids(w.disk) && Commits(w, t, w') && p in w.rows.previews
    requires p !in w.rows.txs[t].expired && w.rows.previews[p].artifact in w.disk.arts
    ensures var id := w.rows.previews[p].artifact; id in w'.disk.arts && w'.disk.arts[id].digest == w.disk.arts[id].digest
  {
    var id := w.rows.previews[p].artifact;
    assert Refers(w, Archive(p), id) && Safe(w, Archive(p), id);
    ContentKept(w, t, w', t, id);
  }

  /** The other transactions and the previews that `t` does not touch. */
  lemma {:induction false} OthersCommitted(w: World, t: Id, w': World, u: Id, p: Id)
    requires Commits(w, t, w') && u in w.disk.txs && u in w.rows.txs && u != t && p in w.rows.previews
    requires p !in w.rows.txs[t].expired && p !in w.rows.txs[t].previews
    ensures u in w'.disk.txs && w'.disk.txs[u] == w.disk.txs[u] && u in w'.rows.txs && w'.rows.txs[u] == w.rows.txs[u]
    ensures p in w'.rows.previews && w'.rows.previews[p] == w.rows.previews[p]
    ensures w'.limits == w.limits && w'.decode == w.decode
  {
  }

  lemma {:induction false} SourceKept(w: World, w': World, u: Id)
    requires IsImport(w, u) && Sourced(w, u) && PairsSaved(w, u) && u in w'.disk.txs && w'.disk.txs[u] == w.disk.txs[u]
    requires u in w'.rows.txs && w'.rows.txs[u] == w.rows.txs[u] && w'.limits == w.limits && w'.decode == w.decode
    requires var p := w.rows.txs[u].op.preview;
             p in w'.rows.previews && w'.rows.previews[p] == w.rows.previews[p]
             && var id := w.rows.previews[p].artifact; id in w'.disk.arts && w'.disk.arts[id].digest == w.disk.arts[id].digest
    ensures Sourced(w', u) && PairsSaved(w', u)
  {
    hide Importer.Readable, Importer.IsPairing;
    CommitPairs(w, w', u);
  }

  lemma {:induction false} CommitSourced(w: World, t: Id, w': World, u: Id)
    requires Inv(w) && ImportsOk(w) && Commits(w, t, w') && IsImport(w', u) && u != t
    ensures Sourced(w', u) && PairsSaved(w', u)
  {
    hide DiskSafety.Inv, RowsSafety.Inv, RefsSafe, ExpiredOk, SameTxs, Reads, PairsSaved;
    assert IsImport(w, u) && Sourced(w, u) && PairsSaved(w, u);
    var p := w.rows.txs[u].op.preview;
    NotDropped(w, t, u);
    IdsOf(w);
    ArchiveKept(w, t, w', p);
    OthersCommitted(w, t, w', u, p);
    SourceKept(w, w', u);
  }

  lemma {:induction false} IdsOf(w: World)
    requires Inv(w)
    ensures DiskSafety.Ids(w.disk) && RefsSafe(w)
  {
  }

  lemma CommitPairs(w: World, w': World, u: Id)
    requires IsImport(w, u) && IsImport(w', u) && PairsSaved(w, u)
    requires w'.rows.txs[u] == w.rows.txs[u] && u in w.disk.txs && u in w'.disk.txs && w'.disk.txs[u] == w.disk.txs[u]
    ensures PairsSaved(w', u)
  {
  }

  /** Neither a collector nor another import takes away or rewrites the preview being imported. */
  lemma NotDropped(w: World, t: Id, u: Id)
    requires Inv(w) && t in w.rows.txs && t in w.disk.txs && u != t && IsImport(w, u) && Sourced(w, u)
    ensures var p := w.rows.txs[u].op.preview; p !in w.rows.txs[t].expired && p !in w.rows.txs[t].previews
  {
    var p := w.rows.txs[u].op.preview;
    assert RowsSafety.Apart(w.rows.txs[u], w.rows.txs[t]) && Rows.ImportsPreview(w.rows.txs[u], p);
    if p in w.rows.txs[t].expired {
      StillOpen(w, u);
      LongExpired(w, t, p);
    }
  }

  lemma StillOpen(w: World, u: Id)
    requires DiskSafety.Timely(w.disk) && IsImport(w, u) && Sourced(w, u)
    ensures w.disk.clock < w.rows.previews[w.rows.txs[u].op.preview].expires + HOUR
  {
  }

  lemma {:induction false} CommitGood(w: World, t: Id, w': World)
    requires Good(w) && Commits(w, t, w')
    ensures Archives(w') && ImportsOk(w')
  {
    forall p: Id ensures ArchiveReadable(w', p) { CommitArchive(w, t, w', p); }
    forall u: Id, p: Id | HasPending(w', u, p) ensures PendingReadable(w', u, p) { CommitPending(w, t, w', u, p); }
    forall u: Id | IsImport(w', u) ensures Sourced(w', u) && PairsSaved(w', u) { CommitSourced(w, t, w', u); }
  }

  lemma {:induction false} BeginGood(w: World, t: Id, cutoff: Option<Time>, w': World)
    requires Archives(w) && ImportsOk(w) && SameTxs(w) && Disk.Enabled(w.disk, Disk.Begin(t, cutoff))
    requires w' == w.(disk := Disk.Apply(w.disk, Disk.Begin(t, cutoff)), rows := Rows.Begin(w.rows, t))
    ensures Archives(w') && ImportsOk(w')
  {
    SteadyKept(w, w', {t});
  }

  /** A deletion, a rollback, a crash, or a statement outside transactions. */
  lemma {:induction false} OtherGood(w: World, w': World)
    requires Archives(w) && ImportsOk(w) && SameTxs(w) && SameTxs(w') && Steady(w, w')
    requires forall t :: t in w'.rows.txs ==> t in w.rows.txs && w'.rows.txs[t] == w.rows.txs[t]
    requires forall t :: t in w'.disk.txs && t in w.disk.txs ==>
      w'.disk.txs[t].saved == w.disk.txs[t].saved && w'.disk.txs[t].begun == w.disk.txs[t].begun
    ensures Archives(w') && ImportsOk(w')
  {
    forall t | t in w'.rows.txs ensures SameTx(w, w', t) { assert t in w.disk.txs && t in w'.disk.txs; }
    SteadyKept(w, w', {});
  }

  lemma {:induction false} AloneGood(w: World, a: Rows.Single, w': World)
    requires Good(w) && Rows.SingleEnabled(w.rows, a) && w' == w.(rows := Rows.SingleApply(w.rows, a))
    ensures Archives(w') && ImportsOk(w')
  {
    RowsCommit.SingleShape(w.rows, a, w'.rows);
    OtherGood(w, w');
  }

  lemma {:induction false} EraseGood(w: World, t: Id, id: Id, w': World)
    requires Archives(w) && ImportsOk(w) && SameTxs(w) && Disk.Enabled(w.disk, Disk.Delete(t, id))
    requires w' == w.(disk := Disk.Apply(w.disk, Disk.Delete(t, id)))
    ensures Archives(w') && ImportsOk(w')
  {
    OtherGood(w, w');
  }

  lemma {:induction false} AbortGood(w: World, t: Id, w': World)
    requires Archives(w) && ImportsOk(w) && SameTxs(w) && Disk.Enabled(w.disk, Disk.Abort(t))
    requires w' == w.(disk := Disk.Apply(w.disk, Disk.Abort(t)), rows := Rows.Abort(w.rows, t))
    ensures Archives(w') && ImportsOk(w')
  {
    assert w'.disk.txs == w.disk.txs - {t} && w'.rows.txs == w.rows.txs - {t};
    OtherGood(w, w');
  }

  lemma {:induction false} CrashGood(w: World, w': World)
    requires Archives(w) && ImportsOk(w) && SameTxs(w) && w' == w.(disk := Disk.Apply(w.disk, Disk.Crash), rows := Rows.Crash(w.rows))
    ensures Archives(w') && ImportsOk(w')
  {
    OtherGood(w, w');
  }

  lemma {:induction false} ImportStep(w: World, s: Step, w': World)
    requires Good(w) && Possible(w, s) && w' == After(w, s)
    ensures Archives(w') && ImportsOk(w')
  {
    match s
    case OnDisk(a) => { OwnStepStoreOnly(w, a, w'); StoreKept(w, w'); }
    case Run(t, stmt) => { StmtRowsOnly(w, t, stmt, w'); RunGood(w, t, stmt, w'); }
    case Commit(t) => CommitGood(w, t, w');
    case Begin(t, cutoff) => BeginGood(w, t, cutoff, w');
    case Alone(a) => AloneGood(w, a, w');
    case Erase(t, id) => EraseGood(w, t, id, w');
    case Abort(t) => AbortGood(w, t, w');
    case Crash => CrashGood(w, w');
  }

  lemma {:induction false} GoodStep(w: World, s: Step, w': World)
    requires Good(w) && Possible(w, s) && w' == After(w, s)
    ensures Good(w')
  {
    StepKept(w, s, w');
    ImportStep(w, s, w');
  }

  lemma {:induction false} GoodRun(w: World, steps: seq<Step>, w': World)
    requires Good(w) && Runs(w, steps, w')
    ensures Good(w')
    decreases |steps|
  {
    if steps != [] {
      GoodStep(w, steps[0], After(w, steps[0]));
      GoodRun(After(w, steps[0]), steps[1..], w');
    }
  }

  /** Every preview in the table can be read by the importer, from the file on disk, as long as it lives. */
  lemma {:induction false} PreviewsStayReadable(w0: World, steps: seq<Step>, w: World, p: Id)
    requires Fresh(w0) && Runs(w0, steps, w) && p in w.rows.previews
    ensures Uncollected(w, w.rows.previews[p].artifact)
    ensures Importer.Readable(w.disk.files[Disk.Stored(w.disk.arts[w.rows.previews[p].artifact].key)].bytes, w.limits, w.decode)
  {
    FreshIsGood(w0);
    GoodRun(w0, steps, w);
    ArchiveRow(w, p);
    assert ArchiveReadable(w, p);
  }
}
