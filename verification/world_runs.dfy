/**
  Safety over whole runs: from a fresh installation, through any interleaving of requests,
  collections, failures and crashes.
*/
module WorldRuns {
  import opened Base
  import opened World
  import opened WorldSafety
  import Disk
  import DiskSafety
  import DiskBounds
  import Rows
  import RowsSafety
  import RowsCommit
  import Validation

  ghost predicate Runs(w: World, steps: seq<Step>, w': World)
    decreases |steps|
  {
    if steps == [] then w' == w
    else Possible(w, steps[0]) && Runs(After(w, steps[0]), steps[1..], w')
  }

  lemma {:induction false} RunsOn(w: World, s: Step, w1: World, rest: seq<Step>, w': World)
    requires Possible(w, s) && w1 == After(w, s) && Runs(w1, rest, w')
    ensures Runs(w, [s] + rest, w')
  {
    assert ([s] + rest)[1..] == rest;
  }

  /** A fresh installation: empty tables, and a directory that holds at most foreign files within the quota. */
  ghost predicate Fresh(w: World) {
    && w.disk.arts == map[] && w.disk.txs == map[] && w.disk.jobs == map[] && w.disk.mu.Free?
    && (forall name :: name in w.disk.files ==> name.Foreign?)
    && (w.disk.quota > 0 ==> DiskBounds.Total(w.disk.files) <= w.disk.quota)
    && w.rows.problems == map[] && w.rows.revs == map[] && w.rows.previews == map[] && w.rows.assigns == map[]
    && w.rows.txs == map[] && w.rows.checks == map[]
  }

  lemma FreshIsSafe(w: World)
    requires Fresh(w)
    ensures Inv(w) && DiskBounds.Bounded(w.disk) && DiskBounds.AllAccounted(w.disk)
  {
  }

  lemma {:induction false} RunSafe(w: World, steps: seq<Step>, w': World)
    requires Inv(w) && Runs(w, steps, w')
    ensures Inv(w')
    decreases |steps|
  {
    if steps != [] {
      StepKept(w, steps[0], After(w, steps[0]));
      RunSafe(After(w, steps[0]), steps[1..], w');
    }
  }

  // ----- every row has its file -----

  /** The file of an artifact is there, with exactly the bytes and the size recorded when it was saved. */
  ghost predicate OnFile(w: World, row: Disk.Artifact) {
    && Disk.Stored(row.key) in w.disk.files
    && w.disk.files[Disk.Stored(row.key)].bytes == row.digest
    && |w.disk.files[Disk.Stored(row.key)].bytes| == row.size
  }

  lemma RowOnFile(w: World, id: Id)
    requires DiskSafety.AllBacked(w.disk) && id in w.disk.arts
    ensures OnFile(w, w.disk.arts[id])
  {
    assert DiskSafety.Bears(w.disk, DiskSafety.Row(id), w.disk.arts[id].key);
    assert DiskSafety.Backed(w.disk, DiskSafety.Row(id), w.disk.arts[id].key);
  }

  /** No row without its file, however saves, rollbacks, removals and crashes interleave. */
  lemma {:induction false} EveryRowHasItsFile(w0: World, steps: seq<Step>, w: World, id: Id)
    requires Fresh(w0) && Runs(w0, steps, w) && id in w.disk.arts
    ensures OnFile(w, w.disk.arts[id])
  {
    FreshIsSafe(w0);
    RunSafe(w0, steps, w);
    RowOnFile(w, id);
  }

  /** The artifact still has its row, and its file with the recorded bytes. */
  ghost predicate Uncollected(w: World, id: Id) {
    id in w.disk.arts && OnFile(w, w.disk.arts[id])
  }

  /** The PDF of the revision, and the input and the output of each of its tests. */
  ghost predicate RevisionUncollected(w: World, r: Id)
    requires r in w.rows.revs
  {
    var doc := w.rows.revs[r];
    && (doc.pdf.Some? ==> Uncollected(w, doc.pdf.value))
    && forall i :: i in doc.tests ==> Uncollected(w, doc.tests[i].input) && Uncollected(w, doc.tests[i].output)
  }

  /**
    Nothing that a revision, draft or published, one of its tests, sample or hidden, or a preview refers to is ever
    collected, shared or not.
  */
  lemma {:induction false} NothingInUseIsCollected(w0: World, steps: seq<Step>, w: World)
    requires Fresh(w0) && Runs(w0, steps, w)
    ensures forall r :: r in w.rows.revs ==> RevisionUncollected(w, r)
    ensures forall p :: p in w.rows.previews ==> Uncollected(w, w.rows.previews[p].artifact)
  {
    FreshIsSafe(w0);
    RunSafe(w0, steps, w);
    forall r | r in w.rows.revs ensures RevisionUncollected(w, r) { RevisionRows(w, r); }
    forall p | p in w.rows.previews ensures Uncollected(w, w.rows.previews[p].artifact) { ArchiveRow(w, p); }
  }

  lemma {:induction false} RevisionRows(w: World, r: Id)
    requires Inv(w) && r in w.rows.revs
    ensures RevisionUncollected(w, r)
  {
    hide Inv;
    var doc := w.rows.revs[r];
    if doc.pdf.Some? { UsedRow(w, r, doc.pdf.value); }
    forall i | i in doc.tests ensures Uncollected(w, doc.tests[i].input) && Uncollected(w, doc.tests[i].output) {
      assert UsesRow(doc.tests[i], doc.tests[i].input) && UsesRow(doc.tests[i], doc.tests[i].output);
      UsedRow(w, r, doc.tests[i].input);
      UsedRow(w, r, doc.tests[i].output);
    }
  }

  // ----- rows and files never change -----

  /** The step as the store sees it; statements on the other tables leave it alone. */
  function DiskView(s: Step): Option<Disk.Action> {
    match s
    case OnDisk(a) => Some(a)
    case Begin(t, cutoff) => Some(Disk.Begin(t, cutoff))
    case Run(_, _) => None
    case Erase(t, id) => Some(Disk.Delete(t, id))
    case Commit(t) => Some(Disk.Commit(t))
    case Abort(t) => Some(Disk.Abort(t))
    case Crash => Some(Disk.Crash)
    case Alone(_) => None
  }

  lemma DiskFollows(w: World, s: Step, w': World)
    requires Possible(w, s) && w' == After(w, s)
    ensures DiskView(s).Some? ==> Disk.Enabled(w.disk, DiskView(s).value) && w'.disk == Disk.Apply(w.disk, DiskView(s).value)
    ensures DiskView(s).None? ==> w'.disk == w.disk
  {
  }

  lemma RowUnchanged(s: Disk.State, a: Disk.Action, id: Id)
    requires DiskSafety.Ids(s) && Disk.Enabled(s, a) && id in s.arts && id in Disk.Apply(s, a).arts
    ensures Disk.Apply(s, a).arts[id] == s.arts[id]
  {
    if a.Commit? { assert !DiskSafety.Saves(s, a.t, id); }
  }

  ghost predicate SameRow(w: World, w': World, id: Id) {
    id in w.disk.arts && id in w'.disk.arts && w'.disk.arts[id] == w.disk.arts[id]
  }

  lemma RowStays(w: World, s: Step, w': World, id: Id)
    requires DiskSafety.Ids(w.disk) && Possible(w, s) && w' == After(w, s) && id in w.disk.arts && id in w'.disk.arts
    ensures SameRow(w, w', id)
  {
    DiskFollows(w, s, w');
    if DiskView(s).Some? { RowUnchanged(w.disk, DiskView(s).value, id); }
  }

  // ----- publication -----

  ghost predicate IsPublished(w: World, r: Id) {
    r in w.rows.revs && w.rows.revs[r].state.Published?
  }

  /** The artifact has the same row, and its file the bytes recorded there, then and now. */
  ghost predicate SameBytes(w: World, w': World, id: Id) {
    SameRow(w, w', id) && OnFile(w, w.disk.arts[id]) && OnFile(w', w.disk.arts[id])
  }

  /** The same revision with the same tests: the PDF, every input and every output has the same bytes. */
  ghost predicate Frozen(w: World, w': World, r: Id) {
    && IsPublished(w, r) && IsPublished(w', r) && w'.rows.revs[r] == w.rows.revs[r]
    && var doc := w.rows.revs[r];
       && (doc.pdf.Some? ==> SameBytes(w, w', doc.pdf.value))
       && forall i :: i in doc.tests ==> SameBytes(w, w', doc.tests[i].input) && SameBytes(w, w', doc.tests[i].output)
  }

  lemma PublishedStays(w: World, s: Step, w': World, r: Id)
    requires Inv(w) && Possible(w, s) && w' == After(w, s) && IsPublished(w, r)
    ensures IsPublished(w', r) && w'.rows.revs[r] == w.rows.revs[r]
  {
    if s.Run? { StmtRowsOnly(w, s.t, s.stmt, w'); }
    else if s.Commit? { CommitLeavesPublished(w.rows, s.t, r); }
    else if s.Alone? { RowsCommit.SingleShape(w.rows, s.single, w'.rows); }
  }

  lemma CommitLeavesPublished(s: Rows.State, t: Id, r: Id)
    requires RowsSafety.Inv(s) && t in s.txs && r in s.revs && s.revs[r].state.Published?
    ensures r in Rows.Commit(s, t).revs && Rows.Commit(s, t).revs[r] == s.revs[r]
  {
    if r in s.txs[t].revs {
      assert RowsSafety.TxOk(s, s.txs[t]);
      RowsCommit.OnlyDraftsReplaced(s, s.txs[t], r);
    }
  }

  lemma UsedRow(w: World, r: Id, id: Id)
    requires Inv(w) && r in w.rows.revs && Uses(w.rows.revs[r], id)
    ensures Uncollected(w, id)
  {
    assert Refers(w, Revision(r), id) && Safe(w, Revision(r), id);
    RowOnFile(w, id);
  }

  lemma FrozenStep(w: World, s: Step, w': World, r: Id)
    requires Inv(w) && Possible(w, s) && w' == After(w, s) && IsPublished(w, r)
    ensures Frozen(w, w', r)
  {
    hide Inv;
    StepKept(w, s, w');
    PublishedStays(w, s, w', r);
    RevisionRows(w, r);
    RevisionRows(w', r);
    StoreIds(w);
    var doc := w.rows.revs[r];
    if doc.pdf.Some? { RowStays(w, s, w', doc.pdf.value); }
    forall i | i in doc.tests ensures SameBytes(w, w', doc.tests[i].input) && SameBytes(w, w', doc.tests[i].output) {
      RowStays(w, s, w', doc.tests[i].input);
      RowStays(w, s, w', doc.tests[i].output);
    }
  }

  /**
    Once published, a revision keeps its statement, metadata, PDF reference and set of tests, and
    the bytes these refer to, in every later state, whatever was already under way.
  */
  lemma {:induction false} PublishedIsFrozen(w: World, steps: seq<Step>, w': World, r: Id)
    requires Inv(w) && Runs(w, steps, w') && IsPublished(w, r)
    ensures Frozen(w, w', r)
    decreases |steps|
  {
    if steps == [] {
      RevisionRows(w, r);
    } else {
      var w1 := After(w, steps[0]);
      StepKept(w, steps[0], w1);
      FrozenStep(w, steps[0], w1, r);
      PublishedIsFrozen(w1, steps[1..], w', r);
      FrozenTrans(w, w1, w', r);
    }
  }

  lemma FrozenTrans(w: World, w1: World, w': World, r: Id)
    requires Frozen(w, w1, r) && Frozen(w1, w', r)
    ensures Frozen(w, w', r)
  {
  }

  // ----- previews -----

  /** The preview is still there, with the same owner, revision and expiry, and its archive is on file. */
  ghost predicate Kept(w: World, w': World, p: Id) {
    && p in w.rows.previews && p in w'.rows.previews
    && w'.rows.previews[p] == w.rows.previews[p].(committed := w'.rows.previews[p].committed)
    && SameRow(w, w', w.rows.previews[p].artifact) && OnFile(w', w'.disk.arts[w'.rows.previews[p].artifact])
  }

  lemma PreviewRowStays(w: World, s: Step, w': World, p: Id)
    requires Inv(w) && Possible(w, s) && w' == After(w, s) && p in w.rows.previews
    requires w.disk.clock <= w.rows.previews[p].expires + HOUR
    ensures p in w'.rows.previews
    ensures w'.rows.previews[p] == w.rows.previews[p].(committed := w'.rows.previews[p].committed)
  {
    hide DiskSafety.Inv, RefsSafe, ExpiredOk;
    if s.Run? { StmtRowsOnly(w, s.t, s.stmt, w'); }
    else if s.Commit? { CommitLeavesPreview(w, s.t, p); }
    else if s.Alone? { RowsCommit.SingleShape(w.rows, s.single, w'.rows); }
  }

  /** A commit drops only previews that a collector found outdated an hour ago, and rewrites only the mark. */
  lemma CommitLeavesPreview(w: World, t: Id, p: Id)
    requires Inv(w) && t in w.rows.txs && p in w.rows.previews && w.disk.clock <= w.rows.previews[p].expires + HOUR
    ensures var rows := Rows.Commit(w.rows, t);
            p in rows.previews && rows.previews[p] == w.rows.previews[p].(committed := rows.previews[p].committed)
  {
    var x := w.rows.txs[t];
    if p in x.expired { LongExpired(w, t, p); }
    assert RowsSafety.TxOk(w.rows, x);
    if p in x.previews { OnlyMarked(w.rows, x, p); }
  }

  lemma LongExpired(w: World, t: Id, p: Id)
    requires ExpiredOk(w) && DiskSafety.Timely(w.disk) && Expires(w, t, p)
    ensures p in w.rows.previews && w.rows.previews[p].expires + HOUR < w.disk.clock
  {
  }

  lemma OnlyMarked(s: Rows.State, x: Rows.Tx, p: Id)
    requires RowsSafety.OpOk(s, x) && p in x.previews && p in s.previews
    ensures x.op.Imported? && x.op.preview == p && x.previews[p].committed.Some?
    ensures x.previews[p] == s.previews[p].(committed := x.previews[p].committed)
  {
  }

  lemma ArchiveRow(w: World, p: Id)
    requires Inv(w) && p in w.rows.previews
    ensures Uncollected(w, w.rows.previews[p].artifact)
  {
    var id := w.rows.previews[p].artifact;
    assert Refers(w, Archive(p), id) && Safe(w, Archive(p), id);
    RowOnFile(w, id);
  }

  lemma KeptStep(w: World, s: Step, w': World, p: Id)
    requires Inv(w) && Possible(w, s) && w' == After(w, s) && p in w.rows.previews
    requires w.disk.clock <= w.rows.previews[p].expires + HOUR
    ensures Kept(w, w', p)
  {
    StepKept(w, s, w');
    PreviewRowStays(w, s, w', p);
    ArchiveRow(w, p);
    ArchiveRow(w', p);
    RowStays(w, s, w', w.rows.previews[p].artifact);
  }

  lemma ClockRuns(w: World, s: Step, w': World)
    requires Possible(w, s) && w' == After(w, s)
    ensures w.disk.clock <= w'.disk.clock
  {
    DiskFollows(w, s, w');
  }

  lemma {:induction false} ClockRunsOn(w: World, steps: seq<Step>, w': World)
    requires Runs(w, steps, w')
    ensures w.disk.clock <= w'.disk.clock
    decreases |steps|
  {
    if steps != [] {
      ClockRuns(w, steps[0], After(w, steps[0]));
      ClockRunsOn(After(w, steps[0]), steps[1..], w');
    }
  }

  /**
    Until an hour after it expires a preview keeps its row, and the row and the file of its
    archive: a commit that is still allowed never fails for a collected archive.
  */
  lemma {:induction false} PreviewOutlivesItsExpiry(w: World, steps: seq<Step>, w': World, p: Id)
    requires Inv(w) && Runs(w, steps, w') && p in w.rows.previews
    requires w'.disk.clock <= w.rows.previews[p].expires + 60 * 60
    ensures Kept(w, w', p)
    decreases |steps|
  {
    if steps == [] {
      ArchiveRow(w, p);
    } else {
      var w1 := After(w, steps[0]);
      ClockRuns(w, steps[0], w1);
      ClockRunsOn(w1, steps[1..], w');
      StepKept(w, steps[0], w1);
      KeptStep(w, steps[0], w1, p);
      PreviewOutlivesItsExpiry(w1, steps[1..], w', p);
    }
  }

  // ----- the quota, and no file lost -----

  lemma BoundedStep(w: World, s: Step, w': World)
    requires DiskSafety.Inv(w.disk) && DiskBounds.Bounded(w.disk) && Possible(w, s) && w' == After(w, s)
    ensures DiskBounds.Bounded(w'.disk) && w'.disk.quota == w.disk.quota
  {
    DiskFollows(w, s, w');
    if DiskView(s).Some? { DiskBounds.QuotaKept(w.disk, DiskView(s).value); }
  }

  lemma {:induction false} BoundedRun(w: World, steps: seq<Step>, w': World)
    requires Inv(w) && DiskBounds.Bounded(w.disk) && Runs(w, steps, w')
    ensures DiskBounds.Bounded(w'.disk) && w'.disk.quota == w.disk.quota
    decreases |steps|
  {
    if steps != [] {
      BoundedStep(w, steps[0], After(w, steps[0]));
      StepKept(w, steps[0], After(w, steps[0]));
      BoundedRun(After(w, steps[0]), steps[1..], w');
    }
  }

  /** The bytes in the directory, staging files apart, never exceed the quota. */
  lemma {:induction false} QuotaNeverExceeded(w0: World, steps: seq<Step>, w: World)
    requires Fresh(w0) && Runs(w0, steps, w) && w0.disk.quota > 0
    ensures DiskBounds.Total(w.disk.files) <= w0.disk.quota
  {
    FreshIsSafe(w0);
    BoundedRun(w0, steps, w);
  }

  /** A run in which no process crashes, no removal fails and no collector gives up halfway. */
  ghost predicate Tidy(w: World, steps: seq<Step>)
    decreases |steps|
  {
    steps != [] ==>
      && Possible(w, steps[0])
      && !IsSloppy(w, steps[0])
      && Tidy(After(w, steps[0]), steps[1..])
  }

  ghost predicate IsSloppy(w: World, s: Step)
    requires Possible(w, s)
  {
    DiskView(s).Some? && Disk.Enabled(w.disk, DiskView(s).value) && DiskBounds.Sloppy(w.disk, DiskView(s).value)
  }

  lemma AccountStep(w: World, s: Step, w': World)
    requires DiskSafety.Inv(w.disk) && DiskBounds.AllAccounted(w.disk) && Possible(w, s) && w' == After(w, s)
    ensures DiskBounds.AllAccounted(w'.disk)
    ensures !IsSloppy(w, s) ==> w'.disk.stray == w.disk.stray
  {
    DiskFollows(w, s, w');
    if DiskView(s).Some? { DiskBounds.AccountKept(w.disk, DiskView(s).value); }
  }

  lemma {:induction false} AccountRun(w: World, steps: seq<Step>, w': World)
    requires Inv(w) && DiskBounds.AllAccounted(w.disk) && Runs(w, steps, w') && Tidy(w, steps)
    ensures DiskBounds.AllAccounted(w'.disk) && w'.disk.stray == w.disk.stray
    decreases |steps|
  {
    if steps != [] {
      AccountStep(w, steps[0], After(w, steps[0]));
      StepKept(w, steps[0], After(w, steps[0]));
      AccountRun(After(w, steps[0]), steps[1..], w');
    }
  }

  /**
    Whichever steps of whichever file transactions failed, when all is quiet again every generated
    file has a committed row: rollbacks have taken their files with them.
  */
  lemma {:induction false} TidyRunLeavesNoOrphan(w0: World, steps: seq<Step>, w: World, k: nat)
    requires Fresh(w0) && w0.disk.stray == {} && Runs(w0, steps, w) && Tidy(w0, steps)
    requires w.disk.txs == map[] && w.disk.jobs == map[] && w.disk.mu.Free? && Disk.Stored(k) in w.disk.files
    ensures exists id :: id in w.disk.arts && w.disk.arts[id].key == k
  {
    FreshIsSafe(w0);
    AccountRun(w0, steps, w);
    DiskBounds.AtRestNothingIsLost(w.disk, k);
  }

  // ----- assignments and metadata -----

  /** Every assignment points to a published revision of the problem it records. */
  lemma {:induction false} EveryAssignmentIsPublished(w0: World, steps: seq<Step>, w: World, a: Id)
    requires Fresh(w0) && Runs(w0, steps, w) && a in w.rows.assigns
    ensures RowsSafety.PointsToPublished(w.rows, w.rows.assigns[a].revision, w.rows.assigns[a].problem)
  {
    FreshIsSafe(w0);
    RunSafe(w0, steps, w);
  }

  /** Publishing a stored draft is refused only when it has neither statement nor PDF. */
  lemma {:induction false} PublishOnlyNeedsContent(w0: World, steps: seq<Step>, w: World, t: Id, now: Time)
    requires Fresh(w0) && Runs(w0, steps, w) && Rows.Edits(w.rows, t)
    ensures Rows.Publish(w.rows, t, now).Some? <==> Rows.HasStatement(Rows.Edited(w.rows, t))
  {
    FreshIsSafe(w0);
    RunSafe(w0, steps, w);
    StoredIsFixed(w.rows, t);
  }

  lemma StoredIsFixed(s: Rows.State, t: Id)
    requires RowsSafety.Inv(s) && Rows.Edits(s, t)
    ensures Validation.FixedPoint(Rows.Edited(s, t).meta, s.parse)
  {
    assert RowsSafety.TxOk(s, s.txs[t]);
    assert RowsSafety.DocOk(Rows.Edited(s, t), s.parse, s.next);
  }
}
