/**
  What every step on the rows keeps: the constraints of internal/db/models.go, the row locks,
  and what the pending writes of each open transaction are allowed to be.
*/
module RowsSafety {
  import opened Base
  import opened Validation
  import opened Rows
  import Importer

  // ----- committed rows -----

  ghost predicate PositionsUnique(tests: map<Id, TestCase>) {
    forall i, j :: i in tests && j in tests && tests[i].position == tests[j].position ==> i == j
  }

  /** The checks and unique indexes on one revision and its tests, and its metadata being validated. */
  ghost predicate DocOk(r: Revision, parse: Parser, next: Id) {
    && r.number > 0
    && FixedPoint(r.meta, parse)
    && (r.state.Published? ==> HasStatement(r))
    && (forall i :: i in r.tests ==> i < next && RowOk(r.tests[i]))
    && PositionsUnique(r.tests)
  }

  /** Revision numbers of each problem are 1, 2, and so on without a gap or a repetition. */
  ghost predicate Numbered(revs: map<Id, Revision>) {
    && (forall q, r :: q in revs && r in revs && revs[q].problem == revs[r].problem && revs[q].number == revs[r].number ==> q == r)
    && (forall r {:trigger Follows(revs, r)} :: r in revs ==> Follows(revs, r))
  }

  /** A revision is the first of its problem, or the number before its own is taken too. */
  ghost predicate Follows(revs: map<Id, Revision>, r: Id)
    requires r in revs
  {
    revs[r].number > 1 ==> HasNumber(revs, revs[r].problem, revs[r].number - 1)
  }

  ghost predicate HasNumber(revs: map<Id, Revision>, p: Id, n: int) {
    exists r :: r in revs && revs[r].problem == p && revs[r].number == n
  }

  ghost predicate PointsToPublished(s: State, rev: Id, problem: Id) {
    rev in s.revs && s.revs[rev].state.Published? && s.revs[rev].problem == problem
  }

  ghost predicate AssignsOk(s: State) {
    && (forall a :: a in s.assigns ==> a < s.next && PointsToPublished(s, s.assigns[a].revision, s.assigns[a].problem))
    && (forall c :: c in s.checks ==> PointsToPublished(s, s.checks[c].rev, s.checks[c].problem))
  }

  ghost predicate CommittedOk(s: State) {
    && (forall p :: p in s.problems ==> p < s.next)
    && (forall r :: r in s.revs ==> r < s.next && DocOk(s.revs[r], s.parse, s.next) && s.revs[r].problem in s.problems)
    && (forall p :: p in s.previews ==> p < s.next && s.previews[p].revision in s.revs)
    && Numbered(s.revs)
    && AssignsOk(s)
  }

  // ----- open transactions -----

  /** The tests of a revision after an import has inserted `ids`, on top of those it started from. */
  ghost predicate Appended(was: map<Id, TestCase>, now: map<Id, TestCase>, base: int, ids: seq<Id>) {
    && (forall i :: i in now <==> i in was || i in ids)
    && (forall i :: i in was ==> i !in ids && now[i] == was[i])
    && (forall k :: 0 <= k < |ids| ==> ids[k] in now && IsImported(now[ids[k]], base + 1 + k))
  }

  /** An imported test is hidden and has no points and no limit of its own. */
  ghost predicate IsImported(row: TestCase, position: int) {
    row == TestCase(position, false, None, None, row.input, row.output)
  }

  /** The pending copy of a draft holds the metadata of its source and copies of the tests done so far. */
  ghost predicate Copied(from: Revision, to: Revision, copies: map<Id, Id>) {
    && to == NextDraft(from).(tests := to.tests)
    && to.tests.Keys == copies.Keys
    && (forall j :: j in copies ==> copies[j] in from.tests && to.tests[j] == from.tests[copies[j]])
    && (forall j, k :: j in copies && k in copies && copies[j] == copies[k] ==> j == k)
  }

  ghost predicate EditOk(s: State, x: Tx, r: Id) {
    && r in s.revs && s.revs[r].state.Draft?
    && x.problems == map[] && x.expired == {}
    && (r in x.revs ==> x.revs[r].problem == s.revs[r].problem && x.revs[r].number == s.revs[r].number)
  }

  ghost predicate NewPreviews(s: State, x: Tx, r: Id) {
    forall p :: p in x.previews ==> p < s.next && p !in s.previews && x.previews[p].revision == r && x.previews[p].committed.None?
  }

  /** The import works on the revision it locked, for a preview nobody has committed. */
  ghost predicate ImportOk(s: State, x: Tx) {
    && (x.op.Importing? || x.op.Imported?)
    && EditOk(s, x, x.op.rev)
    && |x.op.ids| <= |x.op.pairs|
    && (x.op.ids == [] ==> x.op.rev !in x.revs)
    && (x.op.rev in x.revs ==>
          && x.revs[x.op.rev] == s.revs[x.op.rev].(tests := x.revs[x.op.rev].tests)
          && Appended(s.revs[x.op.rev].tests, x.revs[x.op.rev].tests, x.op.base, x.op.ids))
    && (x.op.ids != [] ==> x.op.rev in x.revs)
    && IsMaxPosition(s.revs[x.op.rev].tests, x.op.base)
    && x.op.preview < s.next
    && (x.op.preview in s.previews ==> s.previews[x.op.preview].revision == x.op.rev && s.previews[x.op.preview].committed.None?)
  }

  ghost predicate NothingPending(x: Tx) {
    x.problems == map[] && x.previews == map[] && x.expired == {}
  }

  ghost predicate EditingOk(s: State, x: Tx)
    requires x.op.Editing? || x.op.Closed?
  {
    && EditOk(s, x, x.op.rev)
    && NewPreviews(s, x, x.op.rev)
    && (x.op.Editing? && x.op.rev in x.revs ==> x.revs[x.op.rev].state.Draft?)
  }

  ghost predicate MarkOk(s: State, x: Tx)
    requires x.op.Imported?
  {
    var p := x.op.preview;
    && |x.op.ids| == |x.op.pairs|
    && x.previews.Keys <= {p}
    && (p in s.previews ==> p in x.previews)
    && (p in x.previews ==>
          && p in s.previews && x.previews[p].committed.Some?
          && x.previews[p] == s.previews[p].(committed := x.previews[p].committed))
  }

  ghost predicate CloningOk(s: State, x: Tx)
    requires x.op.Cloning?
  {
    && NothingPending(x) && x.op.problem in s.problems
    && IsLatest(s.revs, x.op.problem, x.op.from) && x.op.from !in x.revs
    && x.op.to !in s.revs && x.op.to in x.revs
    && Copied(s.revs[x.op.from], x.revs[x.op.to], x.op.copies)
  }

  ghost predicate CreatingOk(s: State, x: Tx)
    requires x.op.Creating?
  {
    && x.problems.Keys == {x.op.problem} && x.previews == map[] && x.expired == {}
    && x.op.problem !in s.problems && x.op.rev !in s.revs && x.op.rev in x.revs
    && x.revs[x.op.rev].problem == x.op.problem && x.revs[x.op.rev].number == 1 && x.revs[x.op.rev].state.Draft?
  }

  ghost predicate OpOk(s: State, x: Tx) {
    match x.op
    case Fresh => NothingPending(x)
    case Editing(_) => EditingOk(s, x)
    case Closed(_) => EditingOk(s, x)
    case Importing(_, _, _, _, _) => ImportOk(s, x) && x.previews == map[]
    case Imported(_, _, _, _, _) => ImportOk(s, x) && MarkOk(s, x)
    case Numbering(p) => NothingPending(x) && p in s.problems
    case Cloning(_, _, _, _) => CloningOk(s, x)
    case Creating(_, _) => CreatingOk(s, x)
    case Expiring => x.problems == map[] && x.previews == map[]
  }

  /** Only locked rows are written, and what is locked has been numbered before. */
  ghost predicate Locked(s: State, x: Tx) {
    && (forall r :: r in x.revs ==> LocksRevision(x, r))
    && (forall r: Id :: LocksRevision(x, r) ==> r < s.next)
    && (forall p: Id :: LocksProblem(x, p) ==> p < s.next)
    && (forall p: Id :: LocksPreview(x, p) ==> p < s.next)
  }

  ghost predicate DocsOk(s: State, x: Tx) {
    forall r :: r in x.revs ==> DocOk(x.revs[r], s.parse, s.next)
  }

  ghost predicate TxOk(s: State, x: Tx) {
    Locked(s, x) && DocsOk(s, x) && OpOk(s, x)
  }

  /** Row locks are exclusive, and nobody else writes a preview that is being imported. */
  ghost predicate Apart(x: Tx, y: Tx) {
    && (forall r: Id :: LocksRevision(x, r) ==> !LocksRevision(y, r))
    && (forall p: Id :: LocksProblem(x, p) ==> !LocksProblem(y, p))
    && (forall p: Id :: LocksPreview(x, p) ==> !LocksPreview(y, p))
    && (forall p: Id :: ImportsPreview(x, p) ==> p !in y.previews)
    && (forall p: Id :: ImportsPreview(y, p) ==> p !in x.previews)
  }

  ghost predicate AllApart(s: State) {
    forall t, u :: t in s.txs && u in s.txs && t != u ==> Apart(s.txs[t], s.txs[u])
  }

  ghost predicate Inv(s: State) {
    && CommittedOk(s)
    && (forall t :: t in s.txs ==> TxOk(s, s.txs[t]))
    && AllApart(s)
  }

  // ----- statements -----

  /** A statement of one transaction leaves the others as they were. */
  lemma OthersKept(s: State, s': State, t: Id)
    requires Inv(s) && t in s.txs && t in s'.txs
    requires s' == s.(txs := s.txs[t := s'.txs[t]], next := s'.next) && s.next <= s'.next
    requires TxOk(s', s'.txs[t])
    requires forall u :: u in s.txs && u != t ==> Apart(s'.txs[t], s.txs[u])
    ensures Inv(s')
  {
    forall u | u in s'.txs ensures TxOk(s', s'.txs[u]) {
      if u != t { TxLater(s, s', s.txs[u]); }
    }
    LocksKept(s, s', t);
    DocsLater(s, s');
  }

  lemma LocksKept(s: State, s': State, t: Id)
    requires AllApart(s) && t in s.txs && t in s'.txs && s'.txs == s.txs[t := s'.txs[t]]
    requires forall u :: u in s.txs && u != t ==> Apart(s'.txs[t], s.txs[u])
    ensures AllApart(s')
  {
  }

  lemma DocLater(r: Revision, parse: Parser, next: Id, next': Id)
    requires DocOk(r, parse, next) && next <= next'
    ensures DocOk(r, parse, next')
  {
  }

  lemma DocsLater(s: State, s': State)
    requires CommittedOk(s) && s' == s.(txs := s'.txs, next := s'.next) && s.next <= s'.next
    ensures CommittedOk(s')
  {
    forall r | r in s'.revs ensures r < s'.next && DocOk(s'.revs[r], s'.parse, s'.next) && s'.revs[r].problem in s'.problems {
      DocLater(s.revs[r], s.parse, s.next, s'.next);
    }
    assert forall a :: a in s.assigns ==> PointsToPublished(s', s.assigns[a].revision, s.assigns[a].problem);
    assert forall c :: c in s.checks ==> PointsToPublished(s', s.checks[c].rev, s.checks[c].problem);
  }

  lemma TxLater(s: State, s': State, x: Tx)
    requires TxOk(s, x) && s' == s.(txs := s'.txs, next := s'.next) && s.next <= s'.next
    ensures TxOk(s', x)
  {
    forall r | r in x.revs ensures DocOk(x.revs[r], s'.parse, s'.next) { DocLater(x.revs[r], s.parse, s.next, s'.next); }
  }

  ghost predicate KnownIds(s: State) {
    && (forall p :: p in s.problems ==> p < s.next)
    && (forall r :: r in s.revs ==> r < s.next)
    && (forall p :: p in s.previews ==> p < s.next)
  }

  /** The part of the invariant a statement of `t` starts from. */
  ghost predicate Ready(s: State, t: Id) {
    && t in s.txs && TxOk(s, s.txs[t]) && KnownIds(s)
    && (forall r :: r in s.revs ==> DocOk(s.revs[r], s.parse, s.next))
  }

  /** What a statement of `t` leads to: it changes only its own transaction, which stays in order. */
  ghost predicate Done(s: State, t: Id, s': State) {
    && t in s.txs && t in s'.txs && s.next <= s'.next
    && s' == s.(txs := s.txs[t := s'.txs[t]], next := s'.next)
    && LocksFrom(s, s.txs[t], s'.txs[t])
    && TxOk(s', s'.txs[t])
  }

  /** New locks are on rows that were free, or have just been numbered. */
  ghost predicate LocksFrom(s: State, x: Tx, x': Tx) {
    && (forall r: Id :: LocksRevision(x', r) ==> LocksRevision(x, r) || s.next <= r || RevFree(s, r))
    && (forall p: Id :: LocksProblem(x', p) ==> LocksProblem(x, p) || s.next <= p || ProblemFree(s, p))
    && (forall p: Id :: LocksPreview(x', p) ==> LocksPreview(x, p) || s.next <= p || PreviewFree(s, p))
    && (forall p :: p in x'.previews ==> p in x.previews || s.next <= p || (ImportsPreview(x, p) && p in s.previews))
    && (forall p: Id :: ImportsPreview(x', p) ==>
          ImportsPreview(x, p) || (p in s.previews && LocksRevision(x, s.previews[p].revision)))
  }

  /** Same locks as before, on the same or newly written revisions. */
  lemma LocksAsBefore(s: State, s': State, x: Tx, x': Tx)
    requires Locked(s, x) && s.next <= s'.next
    requires forall r: Id :: LocksRevision(x', r) <==> LocksRevision(x, r)
    requires forall p: Id :: LocksProblem(x', p) <==> LocksProblem(x, p)
    requires x'.previews == x.previews && x'.expired == x.expired
    requires forall p: Id :: ImportsPreview(x', p) ==> ImportsPreview(x, p)
    requires forall r :: r in x'.revs ==> r in x.revs || LocksRevision(x, r)
    ensures LocksFrom(s, x, x') && Locked(s', x')
  {
    assert forall p: Id :: LocksPreview(x', p) <==> LocksPreview(x, p);
  }

  lemma StillApart(s: State, u: Id, x: Tx, x': Tx, y: Tx)
    requires u in s.txs && s.txs[u] == y
    requires TxOk(s, x) && TxOk(s, y) && Apart(x, y) && LocksFrom(s, x, x')
    ensures Apart(x', y)
  {
    forall p: Id | ImportsPreview(x', p) ensures p !in y.previews {
      if !ImportsPreview(x, p) { NotItsPreview(s, y, p); }
    }
    forall p: Id | ImportsPreview(y, p) ensures p !in x'.previews {
      if ImportsPreview(x, p) && p in s.previews { SamePreviewSameLock(s, x, y, p); }
    }
  }

  lemma SamePreviewSameLock(s: State, x: Tx, y: Tx, p: Id)
    requires TxOk(s, x) && TxOk(s, y) && ImportsPreview(x, p) && ImportsPreview(y, p) && p in s.previews
    ensures !Apart(x, y)
  {
    assert ImportOk(s, x) && ImportOk(s, y) && LocksRevision(x, x.op.rev);
  }

  lemma NotItsPreview(s: State, x: Tx, p: Id)
    requires TxOk(s, x) && p in s.previews && !LocksRevision(x, s.previews[p].revision)
    ensures p !in x.previews
  {
  }

  // ----- the revisions a statement writes -----

  lemma PutTestDoc(doc: Revision, id: Id, row: TestCase, parse: Parser, next: Id, next': Id)
    requires DocOk(doc, parse, next) && RowOk(row) && PositionFree(doc.tests, id, row.position)
    requires next <= next' && (id in doc.tests || id < next')
    ensures DocOk(doc.(tests := doc.tests[id := row]), parse, next')
  {
  }

  lemma ImportPairDoc(s: State, x: Tx, doc: Revision, row: TestCase)
    requires ImportOk(s, x) && x.op.Importing? && DocOk(doc, s.parse, s.next)
    requires doc == if x.op.rev in x.revs then x.revs[x.op.rev] else s.revs[x.op.rev]
    requires IsImported(row, x.op.base + 1 + |x.op.ids|)
    ensures DocOk(doc.(tests := doc.tests[s.next := row]), s.parse, s.next + 1)
    ensures Appended(s.revs[x.op.rev].tests, doc.tests[s.next := row], x.op.base, x.op.ids + [s.next])
  {
    var was := s.revs[x.op.rev].tests;
    assert Appended(was, doc.tests, x.op.base, x.op.ids);
    forall i | i in doc.tests ensures doc.tests[i].position < row.position {
      if i in x.op.ids {
        var k :| 0 <= k < |x.op.ids| && x.op.ids[k] == i;
        assert IsImported(doc.tests[x.op.ids[k]], x.op.base + 1 + k);
      }
    }
    PutTestDoc(doc, s.next, row, s.parse, s.next, s.next + 1);
    AppendedOne(was, doc.tests, doc.tests[s.next := row], x.op.base, x.op.ids, s.next);
  }

  lemma AppendedOne(was: map<Id, TestCase>, now: map<Id, TestCase>, next: map<Id, TestCase>, base: int, ids: seq<Id>, id: Id)
    requires Appended(was, now, base, ids) && id !in now
    requires id in next && next == now[id := next[id]] && IsImported(next[id], base + 1 + |ids|)
    ensures Appended(was, next, base, ids + [id])
  {
  }

  lemma CopiedOne(from: Revision, doc: Revision, copies: map<Id, Id>, src: Id, id: Id)
    requires Copied(from, doc, copies) && src in from.tests && src !in copies.Values && id !in doc.tests
    ensures Copied(from, doc.(tests := doc.tests[id := from.tests[src]]), copies[id := src])
  {
  }

  /** Copies of distinct tests keep their positions distinct. */
  lemma CopyDocOk(from: Revision, doc: Revision, copies: map<Id, Id>, parse: Parser, next: Id, next': Id)
    requires DocOk(from, parse, next) && Copied(from, doc, copies)
    requires forall i :: i in doc.tests ==> i < next'
    ensures DocOk(doc, parse, next')
  {
  }

  // ----- one statement each -----

  /** A new version of the locked draft, with the locks as they were. */
  lemma WriteDone(s: State, t: Id, doc: Revision, next: Id)
    requires Ready(s, t) && Edits(s, t) && s.next <= next && DocOk(doc, s.parse, next)
    requires doc.problem == Edited(s, t).problem && doc.number == Edited(s, t).number && doc.state.Draft?
    ensures Done(s, t, Write(s, t, doc).(next := next))
  {
    hide DocOk, LocksFrom, Locked;
    var s' := Write(s, t, doc).(next := next);
    WriteLocks(s, t, doc, next);
    WriteDocs(s, t, doc, next);
    assert EditingOk(s, s.txs[t]) && EditingOk(s', s'.txs[t]);
  }

  lemma {:induction false} WriteLocks(s: State, t: Id, doc: Revision, next: Id)
    requires Edits(s, t) && Locked(s, s.txs[t]) && s.next <= next
    ensures var x' := Write(s, t, doc).txs[t];
            LocksFrom(s, s.txs[t], x') && Locked(Write(s, t, doc).(next := next), x')
  {
    hide LocksFrom, Locked;
    LocksAsBefore(s, Write(s, t, doc).(next := next), s.txs[t], Write(s, t, doc).txs[t]);
  }

  lemma {:induction false} WriteDocs(s: State, t: Id, doc: Revision, next: Id)
    requires Edits(s, t) && DocsOk(s, s.txs[t]) && s.next <= next && DocOk(doc, s.parse, next)
    ensures DocsOk(Write(s, t, doc).(next := next), Write(s, t, doc).txs[t])
  {
    hide DocOk;
    forall r | r in s.txs[t].revs ensures DocOk(s.txs[t].revs[r], s.parse, next) { DocLater(s.txs[t].revs[r], s.parse, s.next, next); }
  }

  lemma {:induction false} EditedOk(s: State, t: Id)
    requires Ready(s, t) && Edits(s, t)
    ensures EditingOk(s, s.txs[t]) && DocOk(Edited(s, t), s.parse, s.next) && Edited(s, t).state.Draft?
  {
    hide DocOk, Locked;
  }

  lemma {:induction false} DropTestDoc(doc: Revision, id: Id, parse: Parser, next: Id)
    requires DocOk(doc, parse, next)
    ensures DocOk(doc.(tests := doc.tests - {id}), parse, next)
  {
  }

  lemma {:induction false} PutRevisionDoc(doc: Revision, meta: Meta, pdf: Option<Id>, parse: Parser, next: Id)
    requires DocOk(doc, parse, next) && FixedPoint(meta, parse) && doc.state.Draft?
    ensures DocOk(doc.(meta := meta, pdf := pdf), parse, next)
  {
    hide FixedPoint;
  }

  lemma {:induction false} PutPdfDoc(doc: Revision, artifact: Id, parse: Parser, next: Id)
    requires DocOk(doc, parse, next)
    ensures DocOk(doc.(pdf := Some(artifact)), parse, next)
  {
    hide FixedPoint;
  }

  lemma EditDone(s: State, t: Id, stmt: Stmt, s': State)
    requires Exec(s, t, stmt) == Some(s') && Ready(s, t)
    requires stmt.SPutTest? || stmt.SDropTest? || stmt.SPutRevision? || stmt.SPutPdf?
    ensures Done(s, t, s')
  {
    hide DocOk, FixedPoint, EditingOk, RowOk, PositionFree, Ready, Done;
    EditedOk(s, t);
    var doc := Edited(s, t);
    match stmt {
      case SPutTest(id, row) => PutTestDoc(doc, id, row, s.parse, s.next, s'.next);
      case SDropTest(id) => DropTestDoc(doc, id, s.parse, s.next);
      case SPutRevision(meta, pdf) => PutRevisionDoc(doc, meta, pdf, s.parse, s.next);
      case SPutPdf(artifact) => PutPdfDoc(doc, artifact, s.parse, s.next);
    }
    WriteDone(s, t, s'.txs[t].revs[s.txs[t].op.rev], s'.next);
  }

  lemma PublishOp(s: State, t: Id, now: Time, s': State)
    requires Publish(s, t, now) == Some(s') && OpOk(s, s.txs[t]) && DocOk(Edited(s, t), s.parse, s.next)
    ensures t in s'.txs && EditingOk(s', s'.txs[t])
    ensures DocOk(s'.txs[t].revs[s'.txs[t].op.rev], s.parse, s.next)
  {
  }

  lemma PublishDone(s: State, t: Id, now: Time, s': State)
    requires Publish(s, t, now) == Some(s') && Ready(s, t)
    ensures Done(s, t, s')
  {
    assert EditingOk(s, s.txs[t]) && DocOk(Edited(s, t), s.parse, s.next);
    PublishOp(s, t, now, s');
    LocksAsBefore(s, s', s.txs[t], s'.txs[t]);
  }

  lemma AddPreviewDone(s: State, t: Id, owner: Id, artifact: Id, expires: Time, s': State)
    requires AddPreview(s, t, owner, artifact, expires) == Some(s') && Ready(s, t)
    ensures Done(s, t, s')
  {
    hide DocOk, LocksFrom, Locked;
    assert EditingOk(s, s.txs[t]) && EditingOk(s', s'.txs[t]);
    TxDocsLater(s, s', t);
    AddPreviewLocks(s, t, owner, artifact, expires, s');
  }

  lemma {:induction false} AddPreviewLocks(s: State, t: Id, owner: Id, artifact: Id, expires: Time, s': State)
    requires AddPreview(s, t, owner, artifact, expires) == Some(s') && Locked(s, s.txs[t])
    ensures t in s'.txs && LocksFrom(s, s.txs[t], s'.txs[t]) && Locked(s', s'.txs[t])
  {
    assert forall p: Id :: LocksPreview(s'.txs[t], p) ==> LocksPreview(s.txs[t], p) || p == s.next;
    assert forall r: Id :: LocksRevision(s'.txs[t], r) <==> LocksRevision(s.txs[t], r);
  }

  lemma TxDocsLater(s: State, s': State, t: Id)
    requires t in s.txs && t in s'.txs && DocsOk(s, s.txs[t]) && s.parse == s'.parse && s.next <= s'.next
    requires s'.txs[t].revs == s.txs[t].revs
    ensures DocsOk(s', s'.txs[t])
  {
  }

  lemma LockDraftDone(s: State, t: Id, r: Id, s': State)
    requires LockDraft(s, t, r) == Some(s') && Ready(s, t)
    ensures Done(s, t, s')
  {
    LockDraftLocks(s, t, r, s');
    hide DocOk, LocksFrom, Locked;
    assert EditingOk(s', s'.txs[t]);
  }

  lemma {:induction false} LockDraftLocks(s: State, t: Id, r: Id, s': State)
    requires LockDraft(s, t, r) == Some(s') && Locked(s, s.txs[t]) && KnownIds(s) && NothingPending(s.txs[t])
    ensures t in s'.txs && LocksFrom(s, s.txs[t], s'.txs[t]) && Locked(s', s'.txs[t])
  {
  }

  lemma StartImportDone(s: State, t: Id, p: Id, owner: Id, now: Time, base: int, pairs: seq<Importer.TestPair>, s': State)
    requires StartImport(s, t, p, owner, now, base, pairs) == Some(s') && Ready(s, t)
    ensures Done(s, t, s')
  {
  }

  lemma ImportPairOp(s: State, t: Id, input: Id, output: Id, s': State)
    requires ImportPair(s, t, input, output) == Some(s')
    requires TxOk(s, s.txs[t]) && DocOk(s.revs[s.txs[t].op.rev], s.parse, s.next)
    ensures t in s'.txs && ImportOk(s', s'.txs[t]) && DocsOk(s', s'.txs[t])
  {
    var x := s.txs[t];
    assert ImportOk(s, x);
    ImportPairDoc(s, x, Current(s, t, x.op.rev), ImportedRow(x.op, input, output));
  }

  lemma ImportPairDone(s: State, t: Id, input: Id, output: Id, s': State)
    requires ImportPair(s, t, input, output) == Some(s') && Ready(s, t)
    ensures Done(s, t, s')
  {
    ImportPairOp(s, t, input, output, s');
    LocksAsBefore(s, s', s.txs[t], s'.txs[t]);
  }

  /** Nobody else is about to write the row that an import will mark. */
  ghost predicate MarkFree(s: State, t: Id) {
    t in s.txs && (s.txs[t].op.Importing? && s.txs[t].op.preview in s.previews ==> PreviewFree(s, s.txs[t].op.preview))
  }

  lemma FinishImportDone(s: State, t: Id, now: Time, s': State)
    requires FinishImport(s, t, now) == Some(s') && Ready(s, t)
    requires MarkFree(s, t)
    ensures Done(s, t, s')
  {
    hide DocOk, LocksFrom, Locked, Appended, IsMaxPosition;
    assert ImportOk(s, s.txs[t]);
    FinishImportLocks(s, t, now, s');
    FinishImportOp(s, t, now, s');
    TxDocsLater(s, s', t);
  }

  lemma {:induction false} FinishImportOp(s: State, t: Id, now: Time, s': State)
    requires FinishImport(s, t, now) == Some(s') && ImportOk(s, s.txs[t])
    ensures t in s'.txs && ImportOk(s', s'.txs[t]) && MarkOk(s', s'.txs[t])
  {
    hide Appended, IsMaxPosition;
  }

  lemma {:induction false} FinishImportLocks(s: State, t: Id, now: Time, s': State)
    requires FinishImport(s, t, now) == Some(s') && Locked(s, s.txs[t]) && MarkFree(s, t) && KnownIds(s)
    requires s.txs[t].previews == map[] && s.txs[t].expired == {}
    ensures t in s'.txs && LocksFrom(s, s.txs[t], s'.txs[t]) && Locked(s', s'.txs[t])
  {
    assert forall r: Id :: LocksRevision(s'.txs[t], r) <==> LocksRevision(s.txs[t], r);
  }

  lemma LockProblemDone(s: State, t: Id, p: Id, s': State)
    requires LockProblem(s, t, p) == Some(s') && Ready(s, t)
    ensures Done(s, t, s')
  {
  }

  lemma CloneLatestOp(s: State, t: Id, r: Id, s': State)
    requires CloneLatest(s, t, r) == Some(s') && TxOk(s, s.txs[t])
    requires DocOk(s.revs[r], s.parse, s.next) && KnownIds(s)
    ensures t in s'.txs && CloningOk(s', s'.txs[t]) && DocsOk(s', s'.txs[t])
  {
  }

  lemma CloneLatestDone(s: State, t: Id, r: Id, s': State)
    requires CloneLatest(s, t, r) == Some(s') && Ready(s, t)
    ensures Done(s, t, s')
  {
    CloneLatestOp(s, t, r, s');
    CloneLatestLocks(s, t, r, s');
    hide DocOk, LocksFrom, Locked, DocsOk, CloningOk;
  }

  lemma {:induction false} CloneLatestLocks(s: State, t: Id, r: Id, s': State)
    requires CloneLatest(s, t, r) == Some(s') && Locked(s, s.txs[t]) && KnownIds(s) && NothingPending(s.txs[t])
    ensures t in s'.txs && LocksFrom(s, s.txs[t], s'.txs[t]) && Locked(s', s'.txs[t])
  {
    assert LocksProblem(s.txs[t], s.txs[t].op.problem);
  }

  lemma CloneTestOp(s: State, t: Id, src: Id, s': State)
    requires CloneTest(s, t, src) == Some(s') && TxOk(s, s.txs[t])
    requires DocOk(s.revs[s.txs[t].op.from], s.parse, s.next)
    ensures t in s'.txs && CloningOk(s', s'.txs[t]) && DocsOk(s', s'.txs[t])
  {
    var x, x' := s.txs[t], s'.txs[t];
    assert CloningOk(s, x) && Locked(s, x);
    var from, doc := s.revs[x.op.from], x.revs[x.op.to];
    assert DocOk(doc, s.parse, s.next);
    CopiedOne(from, doc, x.op.copies, src, s.next);
    CopyDocOk(from, x'.revs[x.op.to], x'.op.copies, s.parse, s.next, s'.next);
  }

  lemma CloneTestDone(s: State, t: Id, src: Id, s': State)
    requires CloneTest(s, t, src) == Some(s') && Ready(s, t)
    ensures Done(s, t, s')
  {
    hide DocOk, LocksFrom, Locked, DocsOk, CloningOk;
    CloneTestOp(s, t, src, s');
    CloneTestLocks(s, t, src, s');
  }

  lemma {:induction false} CloneTestLocks(s: State, t: Id, src: Id, s': State)
    requires CloneTest(s, t, src) == Some(s') && Locked(s, s.txs[t])
    ensures t in s'.txs && LocksFrom(s, s.txs[t], s'.txs[t]) && Locked(s', s'.txs[t])
  {
    hide LocksFrom, Locked;
    LocksAsBefore(s, s', s.txs[t], s'.txs[t]);
  }

  lemma NewProblemDone(s: State, t: Id, row: Problem, meta: Meta, s': State)
    requires NewProblem(s, t, row, meta) == Some(s') && Ready(s, t)
    ensures Done(s, t, s')
  {
    NewProblemLocks(s, t, row, meta, s');
    hide LocksFrom, Locked;
    assert CreatingOk(s', s'.txs[t]);
  }

  lemma {:induction false} NewProblemLocks(s: State, t: Id, row: Problem, meta: Meta, s': State)
    requires NewProblem(s, t, row, meta) == Some(s') && NothingPending(s.txs[t])
    ensures t in s'.txs && LocksFrom(s, s.txs[t], s'.txs[t]) && Locked(s', s'.txs[t])
  {
    hide FixedPoint;
  }

  lemma ExpireDone(s: State, t: Id, cutoff: Time, s': State)
    requires Expire(s, t, cutoff) == Some(s') && Ready(s, t)
    ensures Done(s, t, s')
  {
  }

  lemma DraftStmtDone(s: State, t: Id, stmt: Stmt, s': State)
    requires Exec(s, t, stmt) == Some(s') && Ready(s, t)
    requires stmt.SLockDraft? || stmt.SPublish? || stmt.SAddPreview? || stmt.SPutTest? || stmt.SDropTest?
          || stmt.SPutRevision? || stmt.SPutPdf?
    ensures Done(s, t, s')
  {
    hide Done, Ready, MarkFree;
    match stmt
    case SLockDraft(r) => LockDraftDone(s, t, r, s');
    case SPublish(now) => PublishDone(s, t, now, s');
    case SAddPreview(owner, artifact, expires) => AddPreviewDone(s, t, owner, artifact, expires, s');
    case _ => EditDone(s, t, stmt, s');
  }

  lemma ImportStmtDone(s: State, t: Id, stmt: Stmt, s': State)
    requires Exec(s, t, stmt) == Some(s') && Ready(s, t)
    requires stmt.SStartImport? || stmt.SImportPair? || stmt.SFinishImport?
    requires stmt.SFinishImport? ==> MarkFree(s, t)
    ensures Done(s, t, s')
  {
    hide Done, Ready, MarkFree;
    match stmt
    case SStartImport(p, owner, now, base, pairs) => StartImportDone(s, t, p, owner, now, base, pairs, s');
    case SImportPair(input, output) => ImportPairDone(s, t, input, output, s');
    case SFinishImport(now) => FinishImportDone(s, t, now, s');
  }

  lemma OtherStmtDone(s: State, t: Id, stmt: Stmt, s': State)
    requires Exec(s, t, stmt) == Some(s') && Ready(s, t)
    requires stmt.SLockProblem? || stmt.SCloneLatest? || stmt.SCloneTest? || stmt.SNewProblem? || stmt.SExpire?
    ensures Done(s, t, s')
  {
    hide Done, Ready, MarkFree;
    match stmt
    case SLockProblem(p) => LockProblemDone(s, t, p, s');
    case SCloneLatest(r) => CloneLatestDone(s, t, r, s');
    case SCloneTest(src) => CloneTestDone(s, t, src, s');
    case SNewProblem(row, meta) => NewProblemDone(s, t, row, meta, s');
    case SExpire(cutoff) => ExpireDone(s, t, cutoff, s');
  }

  lemma StmtDone(s: State, t: Id, stmt: Stmt, s': State)
    requires Exec(s, t, stmt) == Some(s') && Ready(s, t)
    requires stmt.SFinishImport? ==> MarkFree(s, t)
    ensures Done(s, t, s')
  {
    hide Done, Ready, MarkFree, Exec;
    if stmt.SStartImport? || stmt.SImportPair? || stmt.SFinishImport? { ImportStmtDone(s, t, stmt, s'); }
    else if stmt.SLockProblem? || stmt.SCloneLatest? || stmt.SCloneTest? || stmt.SNewProblem? || stmt.SExpire? {
      OtherStmtDone(s, t, stmt, s');
    }
    else { DraftStmtDone(s, t, stmt, s'); }
  }

  /** An unfinished import is the only one to touch its preview: others lock another revision. */
  lemma ImportedPreviewFree(s: State, t: Id, now: Time, s': State)
    requires Inv(s) && FinishImport(s, t, now) == Some(s')
    ensures MarkFree(s, t)
  {
    var p := s.txs[t].op.preview;
    assert TxOk(s, s.txs[t]);
    forall u | u in s.txs && p in s.previews ensures !LocksPreview(s.txs[u], p) {
      assert TxOk(s, s.txs[u]);
      if u != t {
        assert Apart(s.txs[t], s.txs[u]) && LocksRevision(s.txs[t], s.txs[t].op.rev);
        NotItsPreview(s, s.txs[u], p);
      }
    }
  }

  lemma InvReady(s: State, t: Id)
    requires Inv(s) && t in s.txs
    ensures Ready(s, t)
  {
  }

  lemma AllStillApart(s: State, t: Id, s': State)
    requires Inv(s) && Done(s, t, s')
    ensures forall u :: u in s.txs && u != t ==> Apart(s'.txs[t], s.txs[u])
  {
    forall u | u in s.txs && u != t ensures Apart(s'.txs[t], s.txs[u]) {
      assert Apart(s.txs[t], s.txs[u]) && TxOk(s, s.txs[u]) && TxOk(s, s.txs[t]);
      StillApart(s, u, s.txs[t], s'.txs[t], s.txs[u]);
    }
  }

  lemma RunsInside(s: State, t: Id, stmt: Stmt, s': State)
    requires Exec(s, t, stmt) == Some(s')
    ensures t in s.txs
  {
  }

  lemma StmtInOrder(s: State, t: Id, stmt: Stmt, s': State)
    requires Inv(s) && Exec(s, t, stmt) == Some(s')
    ensures Done(s, t, s')
  {
    hide Done, Ready;
    RunsInside(s, t, stmt, s');
    InvReady(s, t);
    if stmt.SFinishImport? { ImportedPreviewFree(s, t, stmt.now, s'); }
    StmtDone(s, t, stmt, s');
  }

  lemma StmtKept(s: State, t: Id, stmt: Stmt, s': State)
    requires Inv(s) && Exec(s, t, stmt) == Some(s')
    ensures Inv(s')
  {
    StmtInOrder(s, t, stmt, s');
    AllStillApart(s, t, s');
    OthersKept(s, s', t);
  }
}
