/**
  Concurrent edits of one draft.  The lock makes them take turns, but UpdateDraftRevision (internal/db/problems.go)
  writes back the PDF reference that its caller has read before.
*/
module Edits {
  import opened Base
  import opened System
  import opened World
  import opened WorldRuns
  import Disk
  import Drafts
  import Imports
  import Importer
  import Rollbacks
  import Rows
  import RowsCommit
  import RowsSafety
  import Tests
  import Validation
  import WorldSafety

  // ----- a lock holds -----

  /** A step of another thread, not a crash. */
  predicate ByOthers(s: Step, t: Id) {
    !s.Crash? && Rollbacks.Actor(s) != Some(t)
  }

  ghost predicate OthersRun(steps: seq<Step>, t: Id) {
    forall i :: 0 <= i < |steps| ==> ByOthers(steps[i], t)
  }

  /** The transaction and the revision it has locked are as they were. */
  ghost predicate Undisturbed(s: Rows.State, s': Rows.State, t: Id, r: Id) {
    && t in s.txs && t in s'.txs && s'.txs[t] == s.txs[t]
    && r in s.revs && r in s'.revs && s'.revs[r] == s.revs[r]
  }

  lemma {:induction false} NotWritten(s: Rows.State, t: Id, u: Id, r: Id)
    requires RowsSafety.Inv(s) && t in s.txs && u in s.txs && u != t && Rows.LocksRevision(s.txs[t], r)
    ensures r !in s.txs[u].revs
  {
    hide Rows.LocksRevision, RowsSafety.CommittedOk, RowsSafety.DocsOk, RowsSafety.OpOk, RowsSafety.Locked, RowsSafety.Apart;
    assert RowsSafety.TxOk(s, s.txs[u]) && RowsSafety.Apart(s.txs[u], s.txs[t]);
    RowsCommit.LockedRowsKept(s, s.txs[u], s.txs[t], r);
  }

  lemma {:induction false} OthersCommit(s: Rows.State, t: Id, u: Id, r: Id)
    requires t in s.txs && u in s.txs && u != t && r in s.revs && r !in s.txs[u].revs
    ensures Undisturbed(s, Rows.Commit(s, u), t, r)
  {
  }

  /** The steps that write no committed row. */
  lemma {:induction false} OthersQuiet(w: World, s: Step, w': World, t: Id, r: Id)
    requires Possible(w, s) && w' == After(w, s) && ByOthers(s, t) && !s.Run? && !s.Commit? && !s.Alone?
    requires t in w.rows.txs && r in w.rows.revs
    ensures Undisturbed(w.rows, w'.rows, t, r)
  {
  }

  lemma {:induction false} LockHoldsStep(w: World, s: Step, w': World, t: Id, r: Id)
    requires RowsSafety.Inv(w.rows) && Possible(w, s) && w' == After(w, s) && ByOthers(s, t)
    requires t in w.rows.txs && Rows.LocksRevision(w.rows.txs[t], r) && r in w.rows.revs
    ensures Undisturbed(w.rows, w'.rows, t, r)
  {
    if s.Run? { OthersRunStmt(w, s.t, s.stmt, w', t, r); }
    else if s.Commit? {
      NotWritten(w.rows, t, s.t, r);
      OthersCommit(w.rows, t, s.t, r);
    }
    else if s.Alone? { RowsCommit.SingleShape(w.rows, s.single, w'.rows); }
    else { OthersQuiet(w, s, w', t, r); }
  }

  lemma {:induction false} OthersRunStmt(w: World, u: Id, stmt: Rows.Stmt, w': World, t: Id, r: Id)
    requires RowsSafety.Inv(w.rows) && Rows.Exec(w.rows, u, stmt) == Some(w'.rows) && w' == w.(rows := w'.rows)
    requires u != t && t in w.rows.txs && r in w.rows.revs
    ensures Undisturbed(w.rows, w'.rows, t, r)
  {
    WorldSafety.StmtRowsOnly(w, u, stmt, w');
  }

  /** Whatever others do, a locked revision and the transaction that has locked it stay as they are. */
  lemma {:induction false} LockHolds(w: World, steps: seq<Step>, w': World, t: Id, r: Id)
    requires WorldSafety.Inv(w) && Runs(w, steps, w') && OthersRun(steps, t)
    requires t in w.rows.txs && Rows.LocksRevision(w.rows.txs[t], r) && r in w.rows.revs
    ensures Undisturbed(w.rows, w'.rows, t, r)
    decreases |steps|
  {
    if steps != [] {
      var w1 := After(w, steps[0]);
      assert ByOthers(steps[0], t) && OthersRun(steps[1..], t);
      LockHoldsStep(w, steps[0], w1, t, r);
      WorldSafety.StepKept(w, steps[0], w1);
      LockHolds(w1, steps[1..], w', t, r);
    }
  }

  // ----- when an uploaded PDF survives -----

  lemma {:induction false} PutLocked(s: Rows.State, t: Id, r: Id, meta: Validation.Meta, pdf: Option<Id>, s1: Rows.State)
    requires t in s.txs && s.txs[t].op == Rows.Editing(r) && Rows.PutRevision(s, t, meta, pdf) == Some(s1)
    ensures t in s1.txs && Rows.LocksRevision(s1.txs[t], r) && r in s1.revs && s1.revs == s.revs
    ensures r in s1.txs[t].revs && s1.txs[t].revs[r].pdf == pdf
  {
  }

  lemma {:induction false} Committed(s1: Rows.State, s2: Rows.State, t: Id, r: Id)
    requires t in s1.txs && r in s1.txs[t].revs && Undisturbed(s1, s2, t, r)
    ensures r in Rows.Commit(s2, t).revs && Rows.Commit(s2, t).revs[r] == s1.txs[t].revs[r]
  {
  }

  /** `t`, which has locked the revision `r`, writes it between the steps of others and commits. */
  ghost predicate UpdatesAmongOthers(
    w0: World, before: seq<Step>, w: World, t: Id, r: Id, meta: Validation.Meta, pdf: Option<Id>,
    w1: World, rest: seq<Step>, w2: World, w': World)
  {
    && t in w0.rows.txs && w0.rows.txs[t].op == Rows.Editing(r) && r in w0.rows.revs
    && Runs(w0, before, w) && OthersRun(before, t)
    && Possible(w, Run(t, Rows.SPutRevision(meta, pdf))) && w1 == After(w, Run(t, Rows.SPutRevision(meta, pdf)))
    && Runs(w1, rest, w2) && OthersRun(rest, t)
    && Possible(w2, Step.Commit(t)) && w' == After(w2, Step.Commit(t))
  }

  /**
    An update of a draft between its lock and its commit, with everybody else at work: the PDF that the row has when
    it is locked survives if and only if it is the one the caller passes.
  */
  lemma {:induction false} PdfSurvives(
    w0: World, before: seq<Step>, w: World, t: Id, r: Id, meta: Validation.Meta, pdf: Option<Id>,
    w1: World, rest: seq<Step>, w2: World, w': World)
    requires WorldSafety.Inv(w0) && UpdatesAmongOthers(w0, before, w, t, r, meta, pdf, w1, rest, w2, w')
    ensures r in w0.rows.revs && r in w'.rows.revs
    ensures w'.rows.revs[r].pdf == w0.rows.revs[r].pdf <==> pdf == w0.rows.revs[r].pdf
  {
    hide WorldSafety.Inv, WorldRuns.Runs, OthersRun, Possible, After;
    LockHolds(w0, before, w, t, r);
    AfterWrite(w, t, r, meta, pdf, w1);
    RunSafe(w0, before, w);
    WorldSafety.StepKept(w, Run(t, Rows.SPutRevision(meta, pdf)), w1);
    LockHolds(w1, rest, w2, t, r);
    AfterCommit(w2, t, w');
    Committed(w1.rows, w2.rows, t, r);
  }

  lemma {:induction false} AfterCommit(w: World, t: Id, w': World)
    requires Possible(w, Step.Commit(t)) && w' == After(w, Step.Commit(t)) && t in w.rows.txs
    ensures w'.rows == Rows.Commit(w.rows, t)
  {
  }

  lemma {:induction false} AfterWrite(w: World, t: Id, r: Id, meta: Validation.Meta, pdf: Option<Id>, w1: World)
    requires t in w.rows.txs && w.rows.txs[t].op == Rows.Editing(r)
    requires Possible(w, Run(t, Rows.SPutRevision(meta, pdf))) && w1 == After(w, Run(t, Rows.SPutRevision(meta, pdf)))
    ensures t in w1.rows.txs && Rows.LocksRevision(w1.rows.txs[t], r) && r in w1.rows.revs
    ensures r in w1.rows.txs[t].revs && w1.rows.txs[t].revs[r].pdf == pdf
  {
    PutLocked(w.rows, t, r, meta, pdf, w1.rows);
  }

  // ----- from the moment the caller reads -----

  /** The PDF reference that the step commits for the revision. */
  function WrittenPdf(w: World, s: Step, r: Id): Option<Option<Id>> {
    if s.Commit? && s.t in w.rows.txs && r in w.rows.txs[s.t].revs then Some(w.rows.txs[s.t].revs[r].pdf) else None
  }

  /** The one that the last commit to write the revision has left, if there was one. */
  ghost function LastPdf(w: World, steps: seq<Step>, r: Id): Option<Option<Id>>
    decreases |steps|
  {
    if steps == [] || !Possible(w, steps[0]) then None
    else
      var later := LastPdf(After(w, steps[0]), steps[1..], r);
      if later.Some? then later else WrittenPdf(w, steps[0], r)
  }

  lemma {:induction false} QuietPdf(w: World, s: Step, w': World, r: Id)
    requires Possible(w, s) && w' == After(w, s) && !s.Run? && !s.Commit? && !s.Alone? && r in w.rows.revs
    ensures r in w'.rows.revs && w'.rows.revs[r] == w.rows.revs[r]
  {
  }

  lemma {:induction false} CommitPdf(s: Rows.State, t: Id, r: Id)
    requires t in s.txs && r in s.revs
    ensures var s' := Rows.Commit(s, t); r in s'.revs && s'.revs[r] == if r in s.txs[t].revs then s.txs[t].revs[r] else s.revs[r]
  {
  }

  lemma {:induction false} PdfStep(w: World, s: Step, w': World, r: Id)
    requires RowsSafety.Inv(w.rows) && Possible(w, s) && w' == After(w, s) && r in w.rows.revs
    ensures r in w'.rows.revs
    ensures w'.rows.revs[r].pdf == if WrittenPdf(w, s, r).Some? then WrittenPdf(w, s, r).value else w.rows.revs[r].pdf
  {
    hide RowsSafety.Inv;
    if s.Run? { WorldSafety.StmtRowsOnly(w, s.t, s.stmt, w'); }
    else if s.Commit? { CommitPdf(w.rows, s.t, r); }
    else if s.Alone? { RowsCommit.SingleShape(w.rows, s.single, w'.rows); }
    else { QuietPdf(w, s, w', r); }
  }

  /** The PDF of a revision is decided by the last commit that has written the revision. */
  lemma {:induction false} PdfByLastCommit(w: World, steps: seq<Step>, w': World, r: Id)
    requires WorldSafety.Inv(w) && Runs(w, steps, w') && r in w.rows.revs
    ensures r in w'.rows.revs
    ensures w'.rows.revs[r].pdf == if LastPdf(w, steps, r).Some? then LastPdf(w, steps, r).value else w.rows.revs[r].pdf
    decreases |steps|
  {
    if steps != [] {
      var w1 := After(w, steps[0]);
      PdfStep(w, steps[0], w1, r);
      WorldSafety.StepKept(w, steps[0], w1);
      PdfByLastCommit(w1, steps[1..], w', r);
    }
  }

  /**
    The same from the moment the caller reads the draft, at `w`: the PDF that the row has when it is locked
    survives if and only if no commit since the read has written the draft, or the last one has left the PDF that
    was read.
  */
  lemma {:induction false} ReadPdfSurvives(
    w: World, between: seq<Step>, w0: World, before: seq<Step>, w1: World, t: Id, r: Id, meta: Validation.Meta,
    w2: World, rest: seq<Step>, w3: World, w': World)
    requires WorldSafety.Inv(w) && r in w.rows.revs && Runs(w, between, w0)
    requires UpdatesAmongOthers(w0, before, w1, t, r, meta, w.rows.revs[r].pdf, w2, rest, w3, w')
    ensures r in w0.rows.revs && r in w'.rows.revs
    ensures w'.rows.revs[r].pdf == w0.rows.revs[r].pdf <==> LastPdf(w, between, r) in {None, Some(w.rows.revs[r].pdf)}
  {
    hide WorldSafety.Inv, WorldRuns.Runs, UpdatesAmongOthers;
    PdfByLastCommit(w, between, w0, r);
    RunSafe(w, between, w0);
    PdfSurvives(w0, before, w1, t, r, meta, w.rows.revs[r].pdf, w2, rest, w3, w');
  }

  // ----- an upload that is lost -----

  /** A parser that knows the empty list, no quota, and no archives. */
  const START: World := World(
    Disk.State(0, 0, map[], 0, map[], map[], {}, Disk.Free, map[], map[], {}),
    Rows.State((text: string) => if text == "[]" then Some([]) else None, 0, map[], map[], map[], map[], map[], map[]),
    Importer.Limits(0, 0), (raw: Bytes) => None)

  const NO_META := Validation.Meta("", None, None, "[]", "")

  lemma {:induction false} MetaIsValid()
    ensures Validation.Normalised(NO_META) == NO_META && Validation.Fits(NO_META, START.rows.parse)
  {
    Validation.TrimSpaceIdempotent("");
    Validation.TrimSpaceIdempotent("[]");
  }

  lemma {:induction false} NamesAreValid()
    ensures Validation.TrimSpace("T") == "T" && Validation.NamesOk("T", "T")
  {
    Validation.TrimSpaceIdempotent("T");
    assert "T"[..0] == "";
  }

  /** The draft has no PDF, the upload has succeeded, and nothing refers to its file any more. */
  ghost predicate UploadLost(w: World, rev: Id, id: Id) {
    && rev in w.rows.revs && w.rows.revs[rev].pdf.None? && id in w.disk.arts && w.disk.arts[id].digest == Tests.PDF_HEADER
    && forall r :: r in w.rows.revs ==> !Uses(w.rows.revs[r], id)
  }

  /** A draft without a PDF, and no other revision. */
  ghost predicate OneDraft(w: World, rev: Id) {
    && Idle(w) && SameSetup(START, w) && w.rows.revs.Keys == {rev}
    && w.rows.revs[rev].state.Draft? && w.rows.revs[rev].pdf.None? && w.rows.revs[rev].tests == map[]
  }

  /** The draft has got the uploaded PDF. */
  ghost predicate WithPdf(w: World, rev: Id, id: Id) {
    && Idle(w) && SameSetup(START, w) && w.rows.revs.Keys == {rev}
    && w.rows.revs[rev].state.Draft? && w.rows.revs[rev].pdf == Some(id) && w.rows.revs[rev].tests == map[]
    && id in w.disk.arts && w.disk.arts[id].digest == Tests.PDF_HEADER
  }

  lemma {:induction false} CreateStart()
    ensures Drafts.CanCreate(START, 7, "T", "T", "", NO_META)
  {
    MetaIsValid();
    NamesAreValid();
  }

  method Create() returns (sys: Server, rev: Id)
    ensures fresh(sys) && OneDraft(sys.w, rev)
  {
    hide Imports.Good;
    Imports.FreshIsGood(START);
    CreateStart();
    sys := new Server(START);
    var created := Drafts.CreateProblem(sys, 1, 7, "T", "T", "", NO_META, false);
    assert created.Ok?;
    rev := created.value.1;
  }

  method Upload(sys: Server, rev: Id) returns (id: Id)
    requires OneDraft(sys.w, rev)
    modifies sys
    ensures WithPdf(sys.w, rev, id)
  {
    hide Imports.Good;
    var uploaded := Tests.UploadPDF(sys, 2, 7, rev, Tests.PDF_HEADER, 5, false);
    id := uploaded.value;
  }

  /** Saves the draft with the PDF reference it had before the upload. */
  method SaveAsRead(sys: Server, rev: Id, ghost id: Id)
    requires WithPdf(sys.w, rev, id)
    modifies sys
    ensures Idle(sys.w) && UploadLost(sys.w, rev, id)
  {
    hide Imports.Good;
    MetaIsValid();
    var saved := Drafts.UpdateDraftRevision(sys, 3, rev, Rows.Draft, NO_META, None, false);
    assert saved.Ok?;
  }

  /**
    A caller reads a draft without a PDF; somebody uploads one; the caller saves the draft as it has read it.
    All three calls succeed, and the upload is lost.
  */
  method LoseUpload() returns (sys: Server, rev: Id, id: Id)
    ensures Idle(sys.w) && UploadLost(sys.w, rev, id)
  {
    hide Imports.Good;
    sys, rev := Create();
    id := Upload(sys, rev);
    SaveAsRead(sys, rev, id);
  }
}
