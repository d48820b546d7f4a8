/** Revisions (`CreateDraftRevision`, `PublishRevision` and `UpdateDraftRevision` in internal/db/problems.go). */
module Drafts {
  import opened Base
  import opened System
  import World
  import Clones
  import Disk
  import DiskSafety
  import Files
  import Imports
  import Rows
  import RowsSafety
  import Validation

  datatype Error = NotFound | NotDraft | Invalid | Failed

  // ----- a new draft -----

  predicate HasRevision(s: Rows.State, p: Id) {
    exists r :: r in s.revs && s.revs[r].problem == p
  }

  /** ORDER BY number DESC, the first row. */
  method Latest(revs: map<Id, Rows.Revision>, p: Id) returns (latest: Option<Id>)
    ensures latest.Some? ==> Rows.IsLatest(revs, p, latest.value)
    ensures latest.None? ==> forall r :: r in revs ==> revs[r].problem != p
  {
    latest := None;
    var left := revs.Keys;
    while left != {}
      invariant left <= revs.Keys
      invariant latest.Some? ==> latest.value in revs && revs[latest.value].problem == p
      invariant forall r :: r in revs && r !in left && revs[r].problem == p ==>
        latest.Some? && revs[r].number <= revs[latest.value].number
      decreases left
    {
      var r :| r in left;
      left := left - {r};
      if revs[r].problem == p && (latest.None? || revs[r].number > revs[latest.value].number) { latest := Some(r); }
    }
  }

  /** The clone has copied all tests of `from` but those in `left`. */
  ghost predicate CloningAt(w0: World.World, w: World.World, t: Id, p: Id, from: Id, left: set<Id>) {
    && Working(w, t) && Files.Ahead(w0, w, t) && !w.disk.txs[t].failed && w.disk.txs[t].cutoff.None?
    && w.disk.txs[t].saved == map[] && w.disk.files == w0.disk.files && w.disk.stray == w0.disk.stray
    && from in w.rows.revs
    && var op := w.rows.txs[t].op;
       op.Cloning? && op.problem == p && op.from == from && op.copies.Values == w.rows.revs[from].tests.Keys - left
  }

  method CopyOne(sys: Server, t: Id, src: Id, ghost w0: World.World, ghost p: Id, ghost from: Id, ghost left: set<Id>)
    requires CloningAt(w0, sys.w, t, p, from, left) && src in left && left <= sys.w.rows.revs[from].tests.Keys
    modifies sys
    ensures CloningAt(w0, sys.w, t, p, from, left - {src})
    ensures sys.w.rows.txs[t].op.to == old(sys.w).rows.txs[t].op.to
  {
    hide Imports.Good;
    ghost var w := sys.w;
    DraftPending(sys.w, t);
    var ok := sys.Exec(t, Rows.SCloneTest(src));
    if !ok { assert false; }
    Files.AheadRan(w0, w, sys.w, t);
    MoreValues(w.rows.txs[t].op.copies, w.rows.next, src);
  }

  lemma MoreValues(copies: map<Id, Id>, id: Id, src: Id)
    requires id !in copies
    ensures copies[id := src].Values == copies.Values + {src}
  {
    forall x | x in copies.Values + {src} ensures x in copies[id := src].Values {
      if x == src { assert copies[id := src][id] == src; }
      else {
        var j :| j in copies && copies[j] == x;
        assert copies[id := src][j] == x;
      }
    }
  }

  lemma DraftPending(w: Sound, t: Id)
    requires t in w.rows.txs && w.rows.txs[t].op.Cloning?
    ensures w.rows.txs[t].op.to in w.rows.txs[t].revs && w.rows.txs[t].op.from in w.rows.revs
    ensures w.rows.next !in w.rows.txs[t].op.copies
  {
    var x := w.rows.txs[t];
    assert RowsSafety.TxOk(w.rows, x) && RowsSafety.CloningOk(w.rows, x);
    assert RowsSafety.DocOk(x.revs[x.op.to], w.rows.parse, w.rows.next);
  }

  /** Copies the tests one by one; they are the ones the latest revision has now. */
  method CopyAll(sys: Server, t: Id, ghost w0: World.World, ghost p: Id, from: Id, ghost to: Id)
    requires from in sys.w.rows.revs && CloningAt(w0, sys.w, t, p, from, sys.w.rows.revs[from].tests.Keys)
    requires sys.w.rows.txs[t].op.to == to
    modifies sys
    ensures CloningAt(w0, sys.w, t, p, from, {}) && sys.w.rows.txs[t].op.to == to
  {
    hide Imports.Good;
    var left := sys.w.rows.revs[from].tests.Keys;
    while left != {}
      invariant CloningAt(w0, sys.w, t, p, from, left) && left <= sys.w.rows.revs[from].tests.Keys
      invariant sys.w.rows.txs[t].op.to == to
      decreases left
    {
      var src :| src in left;
      SameLatest(w0, sys.w, t, p, from, left);
      CopyOne(sys, t, src, w0, p, from, left);
      SameLatest(w0, sys.w, t, p, from, left - {src});
      left := left - {src};
    }
  }

  lemma SameLatest(w0: World.World, w: World.World, t: Id, p: Id, from: Id, left: set<Id>)
    requires CloningAt(w0, w, t, p, from, left)
    ensures from in w0.rows.revs && w.rows.revs[from] == w0.rows.revs[from]
  {
  }

  /** A transaction that has locked a problem. */
  function Numbering(w: World.World, t: Id, p: Id): World.World {
    w.(disk := w.disk.(txs := map[t := Disk.Tx(w.disk.clock, map[], {}, None, false)]),
       rows := w.rows.(txs := map[t := Rows.Tx(Rows.Numbering(p), map[], map[], map[], {})]))
  }

  lemma NumberingAhead(w: World.World, t: Id, op: Rows.Op)
    requires Idle(w)
    ensures var w' := w.(disk := w.disk.(txs := map[t := Disk.Tx(w.disk.clock, map[], {}, None, false)]),
                         rows := w.rows.(txs := map[t := Rows.Tx(op, map[], map[], map[], {})]));
            Working(w', t) && Files.Ahead(w, w', t)
  {
  }

  method LockProblem(sys: Server, t: Id, p: Id, faults: bool) returns (ok: bool)
    requires Idle(sys.w)
    modifies sys
    ensures ok <==> p in old(sys.w).rows.problems
    ensures ok ==> sys.w == Numbering(old(sys.w), t, p) && Working(sys.w, t) && Files.Ahead(old(sys.w), sys.w, t)
    ensures !ok ==> Idle(sys.w) && Unchanged(old(sys.w), sys.w)
  {
    hide Imports.Good;
    ghost var w0 := sys.w;
    sys.Open(t, None);
    ok := sys.Exec(t, Rows.SLockProblem(p));
    NumberingAhead(w0, t, if ok then Rows.Numbering(p) else Rows.Fresh);
    if !ok { Files.Rollback(sys, t, w0, faults); }
  }

  method StartClone(sys: Server, t: Id, p: Id, from: Id, ghost w0: World.World) returns (to: Id)
    requires Idle(w0) && sys.w == Numbering(w0, t, p) && Working(sys.w, t) && Files.Ahead(w0, sys.w, t)
    requires Rows.IsLatest(w0.rows.revs, p, from)
    modifies sys
    ensures from in sys.w.rows.revs && CloningAt(w0, sys.w, t, p, from, sys.w.rows.revs[from].tests.Keys)
    ensures sys.w.rows.txs[t].op.to == to
  {
    hide Imports.Good;
    ghost var w := sys.w;
    to := sys.w.rows.next;
    var ok := sys.Exec(t, Rows.SCloneLatest(from));
    if !ok { assert false; }
    Files.AheadRan(w0, w, sys.w, t);
  }

  /** The tables after a clone: one new draft, a copy of the latest revision, and no other change. */
  ghost predicate DraftCreated(w0: World.World, w: World.World, op: Rows.Op, p: Id, to: Id) {
    && op.Cloning? && op.problem == p && op.to == to
    && Clones.DraftOf(w0.rows, op, w.rows) && w.disk.arts == w0.disk.arts && w.disk.files == w0.disk.files
  }

  lemma CloneDone(w0: World.World, w: Sound, t: Id, p: Id, from: Id, w': World.World)
    requires CloningAt(w0, w, t, p, from, {}) && Imports.Commits(w, t, w')
    ensures DraftCreated(w0, w', w.rows.txs[t].op, p, w.rows.txs[t].op.to)
  {
    hide Imports.Good;
    TxInOrder(w, t);
    NothingDeleted(w, t);
    SameStore(w, t, w');
    Clones.CloneCommits(w.rows, t);
    SameDraft(w0.rows, w.rows, w.rows.txs[t].op, w'.rows);
  }

  lemma SameStore(w: World.World, t: Id, w': World.World)
    requires Imports.Commits(w, t, w') && w.disk.txs[t].saved == map[] && w.disk.txs[t].deleted == {}
    ensures w'.disk.arts == w.disk.arts && w'.disk.files == w.disk.files && w'.rows == Rows.Commit(w.rows, t)
  {
  }

  lemma TxInOrder(w: Sound, t: Id)
    requires t in w.rows.txs
    ensures RowsSafety.TxOk(w.rows, w.rows.txs[t])
  {
  }

  lemma SameDraft(s0: Rows.State, s: Rows.State, op: Rows.Op, s': Rows.State)
    requires op.Cloning? && Clones.DraftOf(s, op, s')
    requires s0.revs == s.revs && s0.problems == s.problems && s0.previews == s.previews && s0.assigns == s.assigns
    ensures Clones.DraftOf(s0, op, s')
  {
  }

  lemma NothingDeleted(w: Sound, t: Id)
    requires t in w.disk.txs && w.disk.txs[t].cutoff.None?
    ensures w.disk.txs[t].deleted == {}
  {
    if id :| id in w.disk.txs[t].deleted { assert DiskSafety.Deletes(w.disk, t, id); }
  }

  method FinishClone(sys: Server, t: Id, ghost p: Id, ghost from: Id, ghost w0: World.World) returns (ghost op: Rows.Op)
    requires CloningAt(w0, sys.w, t, p, from, {})
    modifies sys
    ensures op == old(sys.w).rows.txs[t].op && Idle(sys.w) && DraftCreated(w0, sys.w, op, p, op.to)
  {
    hide Imports.Good;
    ghost var w := sys.w;
    op := sys.w.rows.txs[t].op;
    sys.End(t);
    CloneDone(w0, w, t, p, from, sys.w);
  }

  /**
    Clones the latest revision of a problem into the next draft, under the locks on both rows; a failure changes
    nothing, and without one it succeeds for every problem that has a revision.
  */
  method CreateDraftRevision(sys: Server, t: Id, p: Id, faults: bool) returns (r: Result<Id, Error>, ghost op: Rows.Op)
    requires Idle(sys.w)
    modifies sys
    ensures Idle(sys.w)
    ensures r.Err? ==> Unchanged(old(sys.w), sys.w)
    ensures r.Ok? ==> DraftCreated(old(sys.w), sys.w, op, p, r.value)
    ensures !faults ==> (r.Ok? <==> p in old(sys.w).rows.problems && HasRevision(old(sys.w).rows, p))
  {
    hide Imports.Good;
    op := Rows.Fresh;
    ghost var w0 := sys.w;
    var locked := LockProblem(sys, t, p, faults);
    if !locked { return Err(NotFound), op; }
    var latest := Latest(sys.w.rows.revs, p);
    if latest.None? {
      Files.Rollback(sys, t, w0, faults);
      return Err(NotFound), op;
    }
    var to := StartClone(sys, t, p, latest.value, w0);
    CopyAll(sys, t, w0, p, latest.value, to);
    var fault: bool := *;
    if faults && fault {
      Files.Rollback(sys, t, w0, faults);
      return Err(Failed), op;
    }
    op := FinishClone(sys, t, p, latest.value, w0);
    r := Ok(to);
  }

  // ----- publishing and editing -----

  /** One draft is now published, as it was; nothing else has changed. */
  ghost predicate PublishedAsIs(w: World.World, w': World.World, rev: Id, now: Time) {
    && rev in w.rows.revs
    && w'.rows.revs == w.rows.revs[rev := w.rows.revs[rev].(state := Rows.Published, published := Some(now))]
    && w'.rows.problems == w.rows.problems && w'.rows.previews == w.rows.previews && w'.rows.assigns == w.rows.assigns
    && w'.disk.arts == w.disk.arts && w'.disk.files == w.disk.files
  }

  /** One draft has new metadata and another PDF; nothing else has changed. */
  ghost predicate Updated(w: World.World, w': World.World, rev: Id, meta: Validation.Meta, pdf: Option<Id>) {
    && rev in w.rows.revs
    && w'.rows.revs == w.rows.revs[rev := w.rows.revs[rev].(meta := meta, pdf := pdf)]
    && w'.rows.problems == w.rows.problems && w'.rows.previews == w.rows.previews && w'.rows.assigns == w.rows.assigns
    && w'.disk.arts == w.disk.arts && w'.disk.files == w.disk.files
  }

  lemma MetaIsFixed(w: Sound, rev: Id)
    requires rev in w.rows.revs
    ensures Validation.FixedPoint(w.rows.revs[rev].meta, w.rows.parse)
  {
    assert RowsSafety.DocOk(w.rows.revs[rev], w.rows.parse, w.rows.next);
  }

  lemma RunsOn(w: World.World, t: Id, rev: Id, stmt: Rows.Stmt, now: Time, meta: Validation.Meta, pdf: Option<Id>)
    requires rev in w.rows.revs
    ensures var s := Files.Locked(w, t, rev).rows;
            && (Rows.Exec(s, t, Rows.SPublish(now)).Some? <==> Rows.Publishable(w.rows.revs[rev], w.rows.parse))
            && (Rows.Exec(s, t, Rows.SPutRevision(meta, pdf)).Some? <==> Validation.FixedPoint(meta, w.rows.parse))
  {
  }

  /** Ends a transaction that has written the locked draft and saved nothing. */
  method CommitDraft(sys: Server, t: Id, ghost w0: World.World, ghost rev: Id, ghost doc: Rows.Revision)
    requires Idle(w0) && Working(sys.w, t) && sys.w.disk == Files.Locked(w0, t, rev).disk && SameTables(w0, sys.w)
    requires Rows.CanCommit(sys.w.rows, t) && rev in w0.rows.revs
    requires sys.w.rows.txs[t] == Rows.Tx(sys.w.rows.txs[t].op, map[], map[rev := doc], map[], {})
    modifies sys
    ensures Idle(sys.w) && sys.w.rows.revs == w0.rows.revs[rev := doc]
    ensures sys.w.rows.problems == w0.rows.problems && sys.w.rows.previews == w0.rows.previews && sys.w.rows.assigns == w0.rows.assigns
    ensures sys.w.disk.arts == w0.disk.arts && sys.w.disk.files == w0.disk.files
  {
    hide Imports.Good;
    sys.End(t);
  }

  /**
    Publishing validates what is stored once more, which never fails, and then only asks for a statement or a PDF.
  */
  method PublishRevision(sys: Server, t: Id, rev: Id, now: Time, faults: bool) returns (r: Result<(), Error>)
    requires Idle(sys.w)
    modifies sys
    ensures Idle(sys.w)
    ensures r.Err? ==> Unchanged(old(sys.w), sys.w)
    ensures r.Ok? ==> PublishedAsIs(old(sys.w), sys.w, rev, now)
    ensures r == Err(NotDraft) <==> !Files.IsDraft(old(sys.w), rev)
    ensures !faults && Files.IsDraft(old(sys.w), rev) && r.Err? ==> r.error == Invalid
    ensures !faults ==> (r.Ok? <==> Files.IsDraft(old(sys.w), rev) && Rows.HasStatement(old(sys.w).rows.revs[rev]))
  {
    hide Imports.Good;
    ghost var w0 := sys.w;
    var draft := Files.OpenDraft(sys, t, rev, faults);
    if !draft { return Err(NotDraft); }
    MetaIsFixed(w0, rev);
    var doc := sys.w.rows.revs[rev];
    var valid := Validation.ValidateRevision(doc.meta, sys.w.rows.parse);
    if valid.Err? { assert false; }
    RunsOn(w0, t, rev, Rows.SPublish(now), now, doc.meta, None);
    var fault: bool := *;
    if (valid.value.statement == "" && doc.pdf.None?) || (faults && fault) {
      Files.Rollback(sys, t, w0, faults);
      return Err(if faults && fault then Failed else Invalid);
    }
    var ok := sys.Exec(t, Rows.SPublish(now));
    if !ok { assert false; }
    CommitDraft(sys, t, w0, rev, doc.(state := Rows.Published, published := Some(now)));
    r := Ok(());
  }

  /**
    The caller's metadata, normalised, and the PDF the caller has read earlier, which must still exist; `state` is
    the state of the revision as the caller has read it.
  */
  method UpdateDraftRevision(
    sys: Server, t: Id, rev: Id, state: Rows.RevisionState, meta: Validation.Meta, pdf: Option<Id>, faults: bool)
    returns (r: Result<(), Error>)
    requires Idle(sys.w)
    modifies sys
    ensures Idle(sys.w)
    ensures r.Err? ==> Unchanged(old(sys.w), sys.w)
    ensures r.Ok? ==> Updated(old(sys.w), sys.w, rev, Validation.Normalised(meta), pdf)
    ensures state.Published? ==> r == Err(NotDraft)
    ensures state.Draft? ==> (r == Err(Invalid) <==> !Validation.Fits(Validation.Normalised(meta), old(sys.w).rows.parse))
    ensures state.Draft? && r.Err? && r.error != Invalid ==> (r.error == NotDraft <==> !Files.IsDraft(old(sys.w), rev))
    ensures !faults ==> (r.Ok? <==>
      state.Draft? && Files.IsDraft(old(sys.w), rev) && Validation.Fits(Validation.Normalised(meta), old(sys.w).rows.parse)
      && (pdf.Some? ==> pdf.value in old(sys.w).disk.arts))
  {
    hide Imports.Good;
    ghost var w0 := sys.w;
    if !state.Draft? { return Err(NotDraft); }
    var valid := Validation.ValidateRevision(meta, sys.w.rows.parse);
    if valid.Err? { return Err(Invalid); }
    Validation.NormalisedIsFixed(meta, sys.w.rows.parse);
    var draft := Files.OpenDraft(sys, t, rev, faults);
    if !draft { return Err(NotDraft); }
    RunsOn(w0, t, rev, Rows.SPutRevision(valid.value, pdf), 0, valid.value, pdf);
    var fault: bool := *;
    if (pdf.Some? && pdf.value !in sys.w.disk.arts) || (faults && fault) {
      Files.Rollback(sys, t, w0, faults);
      return Err(if faults && fault then Failed else NotFound);
    }
    ghost var doc := sys.w.rows.revs[rev];
    var ok := sys.Exec(t, Rows.SPutRevision(valid.value, pdf));
    if !ok { assert false; }
    CommitDraft(sys, t, w0, rev, doc.(meta := valid.value, pdf := pdf));
    r := Ok(());
  }

  // ----- a new problem -----

  /** A problem with its first revision, an empty draft; nothing else has changed. */
  ghost predicate ProblemCreated(
    w: World.World, w': World.World, p: Id, rev: Id, row: Rows.Problem, meta: Validation.Meta)
  {
    && p !in w.rows.problems && rev !in w.rows.revs && SameSetup(w, w')
    && w'.rows.problems == w.rows.problems[p := row]
    && w'.rows.revs == w.rows.revs[rev := Rows.Revision(p, 1, Rows.Draft, meta, None, None, map[])]
    && w'.rows.previews == w.rows.previews && w'.rows.assigns == w.rows.assigns
    && w'.disk.arts == w.disk.arts && w'.disk.files == w.disk.files
  }

  lemma {:induction false} NewProblemPut(s: Rows.State, t: Id, row: Rows.Problem, meta: Validation.Meta, s1: Rows.State)
    requires Rows.NewProblem(s, t, row, meta) == Some(s1)
    ensures Rows.CanCommit(s1, t)
  {
  }

  lemma NumbersAreNew(w: Sound)
    ensures w.rows.next !in w.rows.problems && w.rows.next + 1 !in w.rows.revs
  {
  }

  /** No problem has the code yet. */
  predicate CodeIsNew(s: Rows.State, code: string) {
    forall q :: q in s.problems ==> s.problems[q].code != code
  }

  /** When nothing goes wrong underneath, this is exactly when a problem can be created. */
  ghost predicate CanCreate(w: World.World, owner: Id, title: string, code: string, kind: string, meta: Validation.Meta) {
    && owner != 0 && Validation.NamesOk(Validation.TrimSpace(title), Validation.TrimSpace(code)) && Validation.KindOk(kind)
    && Validation.Fits(Validation.Normalised(meta), w.rows.parse) && CodeIsNew(w.rows, Validation.TrimSpace(code))
  }

  method CreateProblem(
    sys: Server, t: Id, owner: Id, title: string, code: string, kind: string, meta: Validation.Meta, faults: bool)
    returns (r: Result<(Id, Id), Error>)
    requires Idle(sys.w)
    modifies sys
    ensures Idle(sys.w)
    ensures r.Err? ==> Unchanged(old(sys.w), sys.w)
    ensures r.Ok? ==> ProblemCreated(
      old(sys.w), sys.w, r.value.0, r.value.1,
      Rows.Problem(owner, Validation.TrimSpace(title), Validation.TrimSpace(code)), Validation.Normalised(meta))
    ensures !faults ==> (r.Ok? <==> CanCreate(old(sys.w), owner, title, code, kind, meta))
  {
    hide Imports.Good, Validation.KindOk, Validation.Fits, Validation.TrimSpace, Validation.Normalised, ProblemCreated, CodeIsNew;
    ghost var w0 := sys.w;
    var names := Validation.ValidateProblem(owner, title, code, kind);
    if names.Err? { return Err(Invalid); }
    var valid := Validation.ValidateRevision(meta, sys.w.rows.parse);
    if valid.Err? { return Err(Invalid); }
    Validation.NormalisedIsFixed(meta, sys.w.rows.parse);
    var p := sys.w.rows.next;
    var fault: bool := *;
    var ok := InsertProblem(sys, t, Rows.Problem(owner, names.value.0, names.value.1), valid.value, faults, faults && fault);
    r := if ok then Ok((p, p + 1)) else Err(Failed);
  }

  lemma {:induction false} Inserts(w: World.World, t: Id, row: Rows.Problem, meta: Validation.Meta)
    requires w.rows.txs == map[] && Validation.FixedPoint(meta, w.rows.parse) && Rows.ProblemRowOk(row)
    requires w.rows.next !in w.rows.problems
    ensures Rows.NewProblem(Rows.Begin(w.rows, t), t, row, meta).Some? <==> CodeIsNew(w.rows, row.code)
  {
    if CodeIsNew(w.rows, row.code) { assert Rows.CodeFree(Rows.Begin(w.rows, t), w.rows.next, row.code); }
  }

  /** The row of the problem, then that of its revision; the unique index on the code may refuse. */
  method PutProblem(sys: Server, t: Id, row: Rows.Problem, meta: Validation.Meta) returns (ok: bool)
    requires Idle(sys.w) && Validation.FixedPoint(meta, sys.w.rows.parse) && Rows.ProblemRowOk(row)
    modifies sys
    ensures Working(sys.w, t) && Files.Ahead(old(sys.w), sys.w, t)
    ensures sys.w.disk.txs[t] == Disk.Tx(sys.w.disk.clock, map[], {}, None, false)
    ensures sys.w.disk.arts == old(sys.w).disk.arts && sys.w.disk.files == old(sys.w).disk.files
    ensures ok <==> CodeIsNew(old(sys.w).rows, row.code)
    ensures ok ==> Rows.NewProblem(Rows.Begin(old(sys.w).rows, t), t, row, meta) == Some(sys.w.rows)
  {
    hide Imports.Good;
    ghost var w0 := sys.w;
    NumbersAreNew(sys.w);
    Inserts(sys.w, t, row, meta);
    sys.Open(t, None);
    NumberingAhead(w0, t, Rows.Fresh);
    ghost var w1 := sys.w;
    ok := sys.Exec(t, Rows.SNewProblem(row, meta));
    if ok { Files.AheadRan(w0, w1, sys.w, t); }
  }

  method InsertProblem(sys: Server, t: Id, row: Rows.Problem, meta: Validation.Meta, faults: bool, fault: bool) returns (ok: bool)
    requires Idle(sys.w) && Validation.FixedPoint(meta, sys.w.rows.parse) && Rows.ProblemRowOk(row)
    modifies sys
    ensures Idle(sys.w)
    ensures !ok ==> Unchanged(old(sys.w), sys.w)
    ensures ok ==> ProblemCreated(old(sys.w), sys.w, old(sys.w).rows.next, old(sys.w).rows.next + 1, row, meta)
    ensures ok <==> !fault && CodeIsNew(old(sys.w).rows, row.code)
  {
    hide Imports.Good, ProblemCreated, CodeIsNew, Rows.NewProblem, Rows.ProblemRowOk, Unchanged;
    ghost var w0 := sys.w;
    NumbersAreNew(sys.w);
    ok := PutProblem(sys, t, row, meta);
    if !ok || fault {
      Files.Rollback(sys, t, w0, faults);
      return false;
    }
    ghost var s1 := sys.w.rows;
    NewProblemPut(Rows.Begin(w0.rows, t), t, row, meta, s1);
    CommitProblem(sys, t);
    NewProblemCommits(w0, t, row, meta, s1, sys.w);
  }

  lemma {:induction false} NewProblemCommits(
    w: World.World, t: Id, row: Rows.Problem, meta: Validation.Meta, s1: Rows.State, w': World.World)
    requires w.rows.txs == map[] && w.rows.next !in w.rows.problems && w.rows.next + 1 !in w.rows.revs && t in s1.txs
    requires Rows.NewProblem(Rows.Begin(w.rows, t), t, row, meta) == Some(s1) && w'.rows == Rows.Commit(s1, t)
    requires w'.disk.arts == w.disk.arts && w'.disk.files == w.disk.files && SameSetup(w, w')
    ensures ProblemCreated(w, w', w.rows.next, w.rows.next + 1, row, meta)
  {
    NewRows(Rows.Begin(w.rows, t), t, row, meta, s1);
  }

  /** What the two inserts leave in the transaction. */
  lemma {:induction false} NewTx(s: Rows.State, t: Id, row: Rows.Problem, meta: Validation.Meta, s1: Rows.State)
    requires s.txs == map[t := Rows.Tx(Rows.Fresh, map[], map[], map[], {})]
    requires Rows.NewProblem(s, t, row, meta) == Some(s1) && t in s1.txs
    ensures s1.txs[t] == Rows.Tx(
      Rows.Creating(s.next, s.next + 1), map[s.next := row],
      map[s.next + 1 := Rows.Revision(s.next, 1, Rows.Draft, meta, None, None, map[])], map[], {})
    ensures s1.problems == s.problems && s1.revs == s.revs && s1.previews == s.previews && s1.assigns == s.assigns
  {
    hide Validation.FixedPoint, Rows.ProblemRowOk, Rows.CodeFree;
  }

  lemma {:induction false} NewRows(s: Rows.State, t: Id, row: Rows.Problem, meta: Validation.Meta, s1: Rows.State)
    requires s.txs == map[t := Rows.Tx(Rows.Fresh, map[], map[], map[], {})]
    requires Rows.NewProblem(s, t, row, meta) == Some(s1) && t in s1.txs
    ensures var s' := Rows.Commit(s1, t);
            && s'.problems == s.problems[s.next := row]
            && s'.revs == s.revs[s.next + 1 := Rows.Revision(s.next, 1, Rows.Draft, meta, None, None, map[])]
            && s'.previews == s.previews && s'.assigns == s.assigns
  {
    hide Validation.FixedPoint, Rows.ProblemRowOk, Rows.CodeFree, Rows.NewProblem;
    NewTx(s, t, row, meta, s1);
  }

  method CommitProblem(sys: Server, t: Id)
    requires Working(sys.w, t) && !sys.w.disk.txs[t].failed && Rows.CanCommit(sys.w.rows, t)
    requires sys.w.disk.txs[t] == Disk.Tx(sys.w.disk.clock, map[], {}, None, false)
    modifies sys
    ensures Idle(sys.w) && sys.w.rows == Rows.Commit(old(sys.w).rows, t) && SameSetup(old(sys.w), sys.w)
    ensures sys.w.disk.arts == old(sys.w).disk.arts && sys.w.disk.files == old(sys.w).disk.files
  {
    hide Imports.Good;
    sys.End(t);
  }
}
