/**
  Foreign keys across the two stores: whatever refers to an artifact finds its row, and the
  collector deletes no artifact that anybody refers to or is about to refer to.
*/
module WorldSafety {
  import opened Base
  import opened World
  import Disk
  import DiskSafety
  import Rows
  import RowsSafety
  import RowsCommit

  /** The row is committed, or belongs to the transaction that refers to it. */
  ghost predicate Present(w: World, h: Holder, id: Id) {
    match h
    case Revision(_) => id in w.disk.arts
    case Archive(_) => id in w.disk.arts
    case PendingRevision(t, _) => id in w.disk.arts || Saved(w, t, id)
    case PendingArchive(t, _) => id in w.disk.arts || Saved(w, t, id)
  }

  ghost predicate Safe(w: World, h: Holder, id: Id) {
    Present(w, h, id) && forall u: Id :: Doomed(w, u, id) ==> Excused(w, u, h)
  }

  ghost predicate RefsSafe(w: World) {
    forall h, id: Id :: Refers(w, h, id) ==> Safe(w, h, id)
  }

  /** The outdated previews a collector is deleting. */
  ghost predicate Expires(w: World, t: Id, p: Id) {
    t in w.rows.txs && p in w.rows.txs[t].expired
  }

  ghost predicate ExpiredOk(w: World) {
    forall t: Id, p: Id :: Expires(w, t, p) ==>
      && t in w.disk.txs && w.disk.txs[t].cutoff.Some?
      && p in w.rows.previews && w.rows.previews[p].expires < w.disk.txs[t].cutoff.value
  }

  ghost predicate SameTxs(w: World) {
    w.disk.txs.Keys == w.rows.txs.Keys
  }

  ghost predicate Inv(w: World) {
    && DiskSafety.Inv(w.disk) && RowsSafety.Inv(w.rows)
    && SameTxs(w) && RefsSafe(w) && ExpiredOk(w)
  }

  // ----- steps of the store, with the tables as they were -----

  /** What a step of one Save, one removal or one sweep leaves alone. */
  ghost predicate StoreOnly(w: World, w': World) {
    && w'.rows == w.rows && w'.disk.arts == w.disk.arts && w'.disk.txs.Keys == w.disk.txs.Keys
    && forall t :: t in w.disk.txs ==>
         && w'.disk.txs[t].cutoff == w.disk.txs[t].cutoff && w'.disk.txs[t].begun == w.disk.txs[t].begun
         && w'.disk.txs[t].deleted == w.disk.txs[t].deleted
         && Extends(w.disk.txs[t].saved, w'.disk.txs[t].saved)
  }

  ghost predicate Extends(rows: map<Id, Disk.Artifact>, rows': map<Id, Disk.Artifact>) {
    forall id :: id in rows ==> id in rows' && rows'[id] == rows[id]
  }

  lemma InsertStoreOnly(w: World, a: Disk.Action, w': World)
    requires a.Insert? && Disk.Enabled(w.disk, a) && w' == w.(disk := Disk.Apply(w.disk, a)) && DiskSafety.Ids(w.disk)
    ensures StoreOnly(w, w')
  {
    forall id | id in w.disk.txs[a.t].saved ensures id != w.disk.next { assert DiskSafety.Saves(w.disk, a.t, id); }
  }

  lemma OwnStepStoreOnly(w: World, a: Disk.Action, w': World)
    requires OwnStep(a) && Disk.Enabled(w.disk, a) && w' == w.(disk := Disk.Apply(w.disk, a)) && DiskSafety.Ids(w.disk)
    ensures StoreOnly(w, w')
  {
    if a.Insert? {
      InsertStoreOnly(w, a, w');
    } else {
      assert w'.rows == w.rows && w'.disk.arts == w.disk.arts;
      if a.Fail? { assert w'.disk.txs == w.disk.txs[a.t := w.disk.txs[a.t].(failed := true)]; }
      else { assert w'.disk.txs == w.disk.txs; }
    }
  }

  lemma StoreRefs(w: World, w': World)
    requires RefsSafe(w) && StoreOnly(w, w')
    ensures RefsSafe(w')
  {
    forall h, id: Id | Refers(w', h, id) ensures Safe(w', h, id) {
      assert Refers(w, h, id) && Safe(w, h, id);
      forall u: Id | Doomed(w', u, id) ensures Excused(w', u, h) { assert Doomed(w, u, id); }
    }
  }

  lemma StoreExpired(w: World, w': World)
    requires ExpiredOk(w) && StoreOnly(w, w')
    ensures ExpiredOk(w')
  {
    forall t: Id, p: Id | Expires(w', t, p)
      ensures t in w'.disk.txs && w'.disk.txs[t].cutoff.Some? && p in w'.rows.previews
           && w'.rows.previews[p].expires < w'.disk.txs[t].cutoff.value
    {
      assert Expires(w, t, p);
    }
  }

  lemma OnDiskKept(w: World, a: Disk.Action, w': World)
    requires Inv(w) && OwnStep(a) && Disk.Enabled(w.disk, a) && w' == w.(disk := Disk.Apply(w.disk, a))
    ensures Inv(w')
  {
    OwnStepStoreOnly(w, a, w');
    DiskSafety.StepKept(w.disk, a);
    StoreRefs(w, w');
    StoreExpired(w, w');
  }

  // ----- statements -----

  lemma SafeIsLinkable(w: World, t: Id, r: Id, id: Id)
    requires RefsSafe(w) && (Refers(w, Revision(r), id) || Refers(w, PendingRevision(t, r), id))
    ensures Linkable(w, t, id)
  {
  }

  lemma CurrentLinkable(w: World, t: Id, r: Id, id: Id)
    requires RefsSafe(w) && t in w.rows.txs && r in w.rows.revs && Uses(Rows.Current(w.rows, t, r), id)
    ensures Linkable(w, t, id)
  {
    if r in w.rows.txs[t].revs { assert Refers(w, PendingRevision(t, r), id); } else { assert Refers(w, Revision(r), id); }
    SafeIsLinkable(w, t, r, id);
  }

  /** The document an edit writes: its references come from the version before it, or were checked. */
  lemma EditLinkable(w: World, t: Id, stmt: Rows.Stmt, s': Rows.State, id: Id)
    requires RefsSafe(w) && Warranted(w, t, stmt) && Rows.Exec(w.rows, t, stmt) == Some(s')
    requires Edits(stmt)
    requires t in s'.txs && w.rows.txs[t].op.rev in s'.txs[t].revs && Uses(s'.txs[t].revs[w.rows.txs[t].op.rev], id)
    ensures Linkable(w, t, id)
  {
    var r := w.rows.txs[t].op.rev;
    var doc, doc' := Rows.Edited(w.rows, t), s'.txs[t].revs[r];
    if Uses(doc, id) {
      CurrentLinkable(w, t, r, id);
    } else if i :| i in doc'.tests && UsesRow(doc'.tests[i], id) {
      assert !(i in doc.tests && UsesRow(doc.tests[i], id));
    }
  }

  lemma ImportPairLinkable(w: World, t: Id, input: Id, output: Id, s': Rows.State, id: Id)
    requires RefsSafe(w) && ImportsNext(w, t, input, output) && Rows.ImportPair(w.rows, t, input, output) == Some(s')
    requires DiskSafety.Ids(w.disk)
    requires t in s'.txs && Uses(s'.txs[t].revs[w.rows.txs[t].op.rev], id)
    ensures Linkable(w, t, id)
  {
    var r := w.rows.txs[t].op.rev;
    var doc, doc' := Rows.Current(w.rows, t, r), s'.txs[t].revs[r];
    if Uses(doc, id) {
      CurrentLinkable(w, t, r, id);
    } else {
      var i :| i in doc'.tests && UsesRow(doc'.tests[i], id);
      assert !(i in doc.tests && UsesRow(doc.tests[i], id));
      assert id == input || id == output;
      OwnSavedLinkable(w, t, id);
    }
  }

  lemma OwnSavedLinkable(w: World, t: Id, id: Id)
    requires DiskSafety.Ids(w.disk) && Saved(w, t, id)
    ensures Linkable(w, t, id)
  {
    assert DiskSafety.Saves(w.disk, t, id);
    forall u: Id | u in w.disk.txs ensures !Doomed(w, u, id) {
      if Doomed(w, u, id) { assert DiskSafety.Deletes(w.disk, u, id); }
    }
  }

  lemma CloneLatestLinkable(w: World, t: Id, r: Id, s': Rows.State, id: Id)
    requires RefsSafe(w) && Rows.CloneLatest(w.rows, t, r) == Some(s') && r in w.rows.revs
    requires Uses(Rows.NextDraft(w.rows.revs[r]), id)
    ensures Linkable(w, t, id)
  {
    assert Refers(w, Revision(r), id);
    SafeIsLinkable(w, t, r, id);
  }

  lemma CloneTestLinkable(w: World, t: Id, src: Id, s': Rows.State, id: Id)
    requires RefsSafe(w) && Rows.CloneTest(w.rows, t, src) == Some(s')
    requires t in s'.txs && Uses(s'.txs[t].revs[w.rows.txs[t].op.to], id)
    ensures Linkable(w, t, id)
  {
    var from, to := w.rows.txs[t].op.from, w.rows.txs[t].op.to;
    var doc, doc' := w.rows.txs[t].revs[to], s'.txs[t].revs[to];
    if Uses(doc, id) {
      assert Refers(w, PendingRevision(t, to), id);
      SafeIsLinkable(w, t, to, id);
    } else {
      var i :| i in doc'.tests && UsesRow(doc'.tests[i], id);
      assert !(i in doc.tests && UsesRow(doc.tests[i], id));
      assert Refers(w, Revision(from), id);
      SafeIsLinkable(w, t, from, id);
    }
  }

  predicate Edits(stmt: Rows.Stmt) {
    stmt.SPutTest? || stmt.SDropTest? || stmt.SPutRevision? || stmt.SPutPdf? || stmt.SPublish?
  }

  /** The statements that write no revision. */
  lemma SameRevisions(s: Rows.State, t: Id, stmt: Rows.Stmt, s': Rows.State)
    requires Rows.Exec(s, t, stmt) == Some(s') && !Edits(stmt)
    requires !stmt.SImportPair? && !stmt.SCloneLatest? && !stmt.SCloneTest? && !stmt.SNewProblem?
    ensures t in s.txs && t in s'.txs && s'.txs[t].revs == s.txs[t].revs
  {
  }

  /** A pending revision written by a statement only has references that may be written. */
  lemma RevisionsLinkable(w: World, t: Id, stmt: Rows.Stmt, s': Rows.State, r: Id, id: Id)
    requires RefsSafe(w) && DiskSafety.Ids(w.disk) && Warranted(w, t, stmt) && Rows.Exec(w.rows, t, stmt) == Some(s')
    requires t in s'.txs && r in s'.txs[t].revs && Uses(s'.txs[t].revs[r], id)
    requires !Refers(w, PendingRevision(t, r), id)
    ensures Linkable(w, t, id)
  {
    if stmt.SImportPair? { ImportPairLinkable(w, t, stmt.input, stmt.output, s', id); }
    else if stmt.SCloneLatest? { CloneLatestLinkable(w, t, stmt.from, s', id); }
    else if stmt.SCloneTest? { CloneTestLinkable(w, t, stmt.src, s', id); }
    else if Edits(stmt) { EditLinkable(w, t, stmt, s', id); }
    else if !stmt.SNewProblem? { SameRevisions(w.rows, t, stmt, s'); }
  }

  lemma SamePreviews(s: Rows.State, t: Id, stmt: Rows.Stmt, s': Rows.State)
    requires Rows.Exec(s, t, stmt) == Some(s') && !stmt.SAddPreview? && !stmt.SFinishImport?
    ensures t in s.txs && t in s'.txs && s'.txs[t].previews == s.txs[t].previews
  {
  }

  lemma AddPreviewLinkable(w: World, t: Id, stmt: Rows.Stmt, s': Rows.State, p: Id)
    requires stmt.SAddPreview? && Warranted(w, t, stmt) && Rows.Exec(w.rows, t, stmt) == Some(s')
    requires t in s'.txs && p in s'.txs[t].previews && !Refers(w, PendingArchive(t, p), s'.txs[t].previews[p].artifact)
    ensures Linkable(w, t, s'.txs[t].previews[p].artifact)
  {
  }

  /** Marking a preview keeps its archive: a collector about to delete it would hold the row. */
  lemma MarkLinkable(w: World, t: Id, now: Time, s': Rows.State, p: Id)
    requires RefsSafe(w) && Rows.FinishImport(w.rows, t, now) == Some(s')
    requires t in s'.txs && p in s'.txs[t].previews && !Refers(w, PendingArchive(t, p), s'.txs[t].previews[p].artifact)
    ensures Linkable(w, t, s'.txs[t].previews[p].artifact)
  {
    var id := w.rows.previews[p].artifact;
    assert Refers(w, Archive(p), id) && Safe(w, Archive(p), id);
    forall u: Id | u in w.disk.txs ensures !Doomed(w, u, id) { assert !Excused(w, u, Archive(p)); }
  }

  lemma PreviewsLinkable(w: World, t: Id, stmt: Rows.Stmt, s': Rows.State, p: Id)
    requires RefsSafe(w) && Warranted(w, t, stmt) && Rows.Exec(w.rows, t, stmt) == Some(s')
    requires t in s'.txs && p in s'.txs[t].previews && !Refers(w, PendingArchive(t, p), s'.txs[t].previews[p].artifact)
    ensures Linkable(w, t, s'.txs[t].previews[p].artifact)
  {
    if stmt.SFinishImport? { MarkLinkable(w, t, stmt.now, s', p); }
    else if stmt.SAddPreview? { AddPreviewLinkable(w, t, stmt, s', p); }
    else { SamePreviews(w.rows, t, stmt, s'); }
  }

  /** A statement changes only its own transaction. */
  ghost predicate RowsOnly(w: World, t: Id, w': World) {
    && t in w.rows.txs && t in w'.rows.txs && w' == w.(rows := w'.rows)
    && w'.rows == w.rows.(txs := w.rows.txs[t := w'.rows.txs[t]], next := w'.rows.next)
    && w.rows.txs[t].expired <= w'.rows.txs[t].expired
  }

  lemma StmtRowsOnly(w: World, t: Id, stmt: Rows.Stmt, w': World)
    requires RowsSafety.Inv(w.rows) && Rows.Exec(w.rows, t, stmt) == Some(w'.rows) && w' == w.(rows := w'.rows)
    ensures RowsOnly(w, t, w')
  {
    RowsSafety.StmtInOrder(w.rows, t, stmt, w'.rows);
    ExpiredGrows(w.rows, t, stmt, w'.rows);
  }

  lemma ExpiredGrows(s: Rows.State, t: Id, stmt: Rows.Stmt, s': Rows.State)
    requires Rows.Exec(s, t, stmt) == Some(s') && t in s.txs && t in s'.txs && RowsSafety.OpOk(s, s.txs[t])
    ensures s.txs[t].expired <= s'.txs[t].expired
    ensures !stmt.SExpire? ==> s'.txs[t].expired == s.txs[t].expired
  {
  }

  lemma StmtRefs(w: World, t: Id, stmt: Rows.Stmt, w': World)
    requires RefsSafe(w) && DiskSafety.Ids(w.disk) && RowsOnly(w, t, w')
    requires Warranted(w, t, stmt) && Rows.Exec(w.rows, t, stmt) == Some(w'.rows)
    ensures RefsSafe(w')
  {
    forall h, id: Id | Refers(w', h, id) ensures Safe(w', h, id) {
      if Refers(w, h, id) {
        assert Safe(w, h, id);
        forall u: Id | Doomed(w', u, id) ensures Excused(w', u, h) { assert Doomed(w, u, id) && Excused(w, u, h); }
      } else {
        if h.PendingRevision? { RevisionsLinkable(w, t, stmt, w'.rows, h.r, id); }
        else { PreviewsLinkable(w, t, stmt, w'.rows, h.p); }
        assert Linkable(w, t, id);
      }
    }
  }

  lemma StmtExpired(w: World, t: Id, stmt: Rows.Stmt, w': World)
    requires ExpiredOk(w) && RowsOnly(w, t, w') && RowsSafety.OpOk(w.rows, w.rows.txs[t])
    requires Warranted(w, t, stmt) && Rows.Exec(w.rows, t, stmt) == Some(w'.rows)
    ensures ExpiredOk(w')
  {
    ExpiredGrows(w.rows, t, stmt, w'.rows);
    forall u: Id, p: Id | Expires(w', u, p)
      ensures u in w'.disk.txs && w'.disk.txs[u].cutoff.Some? && p in w'.rows.previews
           && w'.rows.previews[p].expires < w'.disk.txs[u].cutoff.value
    {
      if u != t || !stmt.SExpire? { assert Expires(w, u, p); } else { assert p in Rows.Outdated(w.rows, stmt.cutoff); }
    }
  }

  lemma {:induction false} StoreIds(w: World)
    requires Inv(w)
    ensures DiskSafety.Ids(w.disk)
  {
  }

  lemma {:induction false} RunsInOrder(w: World, t: Id, stmt: Rows.Stmt, s': Rows.State)
    requires RowsSafety.Inv(w.rows) && Rows.Exec(w.rows, t, stmt) == Some(s')
    ensures t in w.rows.txs && RowsSafety.OpOk(w.rows, w.rows.txs[t])
  {
    RowsSafety.RunsInside(w.rows, t, stmt, s');
    assert RowsSafety.TxOk(w.rows, w.rows.txs[t]);
  }

  lemma RunKept(w: World, t: Id, stmt: Rows.Stmt, w': World)
    requires Inv(w) && Warranted(w, t, stmt) && Rows.Exec(w.rows, t, stmt) == Some(w'.rows) && w' == w.(rows := w'.rows)
    ensures Inv(w')
  {
    hide DiskSafety.Inv, RowsSafety.Inv, RefsSafe, ExpiredOk, Warranted, Rows.Exec;
    StoreIds(w);
    RunsInOrder(w, t, stmt, w'.rows);
    StmtRowsOnly(w, t, stmt, w');
    RowsSafety.StmtKept(w.rows, t, stmt, w'.rows);
    StmtRefs(w, t, stmt, w');
    StmtExpired(w, t, stmt, w');
  }

  // ----- the other steps -----

  lemma SameExpired(w: World, w': World)
    requires ExpiredOk(w) && w'.rows.previews == w.rows.previews
    requires forall t :: t in w'.rows.txs ==> w'.rows.txs[t].expired == {} || (t in w.rows.txs && w'.rows.txs[t] == w.rows.txs[t])
    requires forall t :: t in w'.rows.txs && t in w.disk.txs ==> t in w'.disk.txs && w'.disk.txs[t].cutoff == w.disk.txs[t].cutoff
    ensures ExpiredOk(w')
  {
    forall t: Id, p: Id | Expires(w', t, p)
      ensures t in w'.disk.txs && w'.disk.txs[t].cutoff.Some? && p in w'.rows.previews
           && w'.rows.previews[p].expires < w'.disk.txs[t].cutoff.value
    {
      assert Expires(w, t, p);
    }
  }

  lemma BeginKept(w: World, t: Id, cutoff: Option<Time>, w': World)
    requires Inv(w) && Disk.Enabled(w.disk, Disk.Begin(t, cutoff))
    requires w' == w.(disk := Disk.Apply(w.disk, Disk.Begin(t, cutoff)), rows := Rows.Begin(w.rows, t))
    ensures Inv(w')
  {
    hide DiskSafety.Inv, RowsSafety.Inv, RefsSafe, ExpiredOk;
    DiskSafety.StepKept(w.disk, Disk.Begin(t, cutoff));
    RowsCommit.BeginKept(w.rows, t);
    BeginRefs(w, t, w');
    SameExpired(w, w');
  }

  lemma BeginRefs(w: World, t: Id, w': World)
    requires RefsSafe(w) && SameTxs(w) && t !in w.disk.txs && w'.rows == Rows.Begin(w.rows, t) && w'.disk.arts == w.disk.arts
    requires t in w'.disk.txs && w'.disk.txs == w.disk.txs[t := w'.disk.txs[t]] && w'.disk.txs[t].deleted == {}
    ensures RefsSafe(w')
  {
    forall h, id: Id | Refers(w', h, id) ensures Safe(w', h, id) {
      assert Refers(w, h, id) && Safe(w, h, id);
      forall u: Id | Doomed(w', u, id) ensures Excused(w', u, h) { assert Doomed(w, u, id) && Excused(w, u, h); }
    }
  }

  lemma EraseKept(w: World, t: Id, id: Id, w': World)
    requires Inv(w) && Disk.Enabled(w.disk, Disk.Delete(t, id)) && t in w.rows.txs
    requires forall h :: Refers(w, h, id) ==> Excused(w, t, h)
    requires w' == w.(disk := Disk.Apply(w.disk, Disk.Delete(t, id)))
    ensures Inv(w')
  {
    hide DiskSafety.Inv, RowsSafety.Inv, RefsSafe, ExpiredOk;
    DiskSafety.StepKept(w.disk, Disk.Delete(t, id));
    EraseRefs(w, t, id, w');
    SameExpired(w, w');
  }

  lemma EraseRefs(w: World, t: Id, id: Id, w': World)
    requires RefsSafe(w) && w'.rows == w.rows && w'.disk.arts == w.disk.arts && w'.disk.txs.Keys == w.disk.txs.Keys
    requires forall h :: Refers(w, h, id) ==> Excused(w, t, h)
    requires forall u: Id, i: Id :: Doomed(w', u, i) ==> Doomed(w, u, i) || (u == t && i == id)
    requires forall u: Id, i: Id :: Saved(w, u, i) ==> Saved(w', u, i)
    ensures RefsSafe(w')
  {
    forall h, i: Id | Refers(w', h, i) ensures Safe(w', h, i) {
      assert Refers(w, h, i) && Safe(w, h, i);
      forall u: Id | Doomed(w', u, i) ensures Excused(w', u, h) {
        if u != t || i != id { assert Doomed(w, u, i); }
      }
    }
  }

  /** Ended without a commit: the pending rows are gone, and with them their references. */
  lemma FewerRefs(w: World, w': World)
    requires RefsSafe(w) && w'.disk.arts == w.disk.arts
    requires w'.rows.revs == w.rows.revs && w'.rows.previews == w.rows.previews
    requires forall t :: t in w'.rows.txs ==> t in w.rows.txs && w'.rows.txs[t] == w.rows.txs[t] && t in w'.disk.txs
    requires forall t :: t in w'.disk.txs ==> t in w.disk.txs && w'.disk.txs[t] == w.disk.txs[t] && t in w'.rows.txs
    ensures RefsSafe(w')
  {
    forall h, id: Id | Refers(w', h, id) ensures Safe(w', h, id) {
      assert Refers(w, h, id) && Safe(w, h, id);
      forall u: Id | Doomed(w', u, id) ensures Excused(w', u, h) { assert Doomed(w, u, id) && Excused(w, u, h); }
    }
  }

  lemma AbortKept(w: World, t: Id, w': World)
    requires Inv(w) && Possible(w, Abort(t)) && w' == After(w, Abort(t))
    ensures Inv(w')
  {
    DiskSafety.StepKept(w.disk, Disk.Abort(t));
    RowsCommit.AbortKept(w.rows, t);
    FewerRefs(w, w');
    SameExpired(w, w');
  }

  lemma CrashKept(w: World, w': World)
    requires Inv(w) && w' == After(w, Crash)
    ensures Inv(w')
  {
    DiskSafety.StepKept(w.disk, Disk.Crash);
    RowsCommit.CrashKept(w.rows);
    FewerRefs(w, w');
  }

  lemma AloneKept(w: World, a: Rows.Single, w': World)
    requires Inv(w) && Rows.SingleEnabled(w.rows, a) && w' == w.(rows := Rows.SingleApply(w.rows, a))
    ensures Inv(w')
  {
    RowsCommit.SingleKept(w.rows, a, w'.rows);
    RowsCommit.SingleShape(w.rows, a, w'.rows);
    FewerRefs(w, w');
    SameExpired(w, w');
  }

  // ----- commit -----

  /** Where a reference was before the commit of `t`. */
  ghost function Was(w: World, t: Id, h: Holder): Holder
    requires t in w.rows.txs
  {
    match h
    case Revision(r) => if r in w.rows.txs[t].revs then PendingRevision(t, r) else h
    case Archive(p) => if p in w.rows.txs[t].previews then PendingArchive(t, p) else h
    case _ => h
  }

  lemma WasReferred(w: World, t: Id, w': World, h: Holder, id: Id)
    requires t in w.rows.txs && w'.rows == Rows.Commit(w.rows, t) && Refers(w', h, id)
    ensures Refers(w, Was(w, t, h), id)
    ensures h.Archive? ==> h.p in w.rows.txs[t].previews || h.p !in w.rows.txs[t].expired
    ensures h.PendingRevision? || h.PendingArchive? ==> h.t != t
  {
  }

  lemma CommitRefs(w: World, t: Id, w': World)
    requires RefsSafe(w) && t in w.rows.txs && t in w.disk.txs && w'.rows == Rows.Commit(w.rows, t)
    requires w'.disk.arts == w.disk.arts - w.disk.txs[t].deleted + w.disk.txs[t].saved && w'.disk.txs == w.disk.txs - {t}
    ensures RefsSafe(w')
  {
    forall h, id: Id | Refers(w', h, id) ensures Safe(w', h, id) {
      WasReferred(w, t, w', h, id);
      assert Safe(w, Was(w, t, h), id);
      assert !Doomed(w, t, id);
      forall u: Id | Doomed(w', u, id) ensures Excused(w', u, h) { assert Doomed(w, u, id) && Excused(w, u, Was(w, t, h)); }
    }
  }

  lemma CommitExpired(w: World, t: Id, w': World)
    requires ExpiredOk(w) && RowsSafety.AllApart(w.rows) && t in w.rows.txs && w'.rows == Rows.Commit(w.rows, t)
    requires w'.disk.txs == w.disk.txs - {t}
    ensures ExpiredOk(w')
  {
    forall u: Id, p: Id | Expires(w', u, p)
      ensures u in w'.disk.txs && w'.disk.txs[u].cutoff.Some? && p in w'.rows.previews
           && w'.rows.previews[p].expires < w'.disk.txs[u].cutoff.value
    {
      assert Expires(w, u, p) && RowsSafety.Apart(w.rows.txs[u], w.rows.txs[t]);
      assert Rows.LocksPreview(w.rows.txs[u], p) && !Rows.LocksPreview(w.rows.txs[t], p);
    }
  }

  lemma CommitKept(w: World, t: Id, w': World)
    requires Inv(w) && Possible(w, Commit(t)) && w' == After(w, Commit(t))
    ensures Inv(w')
  {
    DiskSafety.StepKept(w.disk, Disk.Commit(t));
    RowsCommit.CommitKept(w.rows, t);
    CommitRefs(w, t, w');
    CommitExpired(w, t, w');
  }

  /** Every step of every party keeps the two stores consistent. */
  lemma StepKept(w: World, s: Step, w': World)
    requires Inv(w) && Possible(w, s) && w' == After(w, s)
    ensures Inv(w')
  {
    match s
    case OnDisk(a) => OnDiskKept(w, a, w');
    case Begin(t, cutoff) => BeginKept(w, t, cutoff, w');
    case Run(t, stmt) => RunKept(w, t, stmt, w');
    case Erase(t, id) => EraseKept(w, t, id, w');
    case Commit(t) => CommitKept(w, t, w');
    case Abort(t) => AbortKept(w, t, w');
    case Crash => CrashKept(w, w');
    case Alone(a) => AloneKept(w, a, w');
  }
}
