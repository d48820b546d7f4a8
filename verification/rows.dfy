/**
  Problem revisions, import previews and assignments (internal/db/problems.go and the row half
  of internal/content/files.go) as a state machine: committed tables, the pending writes of
  each open transaction, and the row locks those writes hold until it ends.

  A revision is kept together with its test cases, which only exist inside it.  A pending write
  of a transaction replaces the revision it has locked, or adds one nobody else can see yet.
*/
module Rows {
  import opened Base
  import opened Validation
  import Importer

  datatype RevisionState = Draft | Published

  datatype TestCase = TestCase(
    position: int, sample: bool, points: Option<int>, limit: Option<int>, input: Id, output: Id)

  datatype Revision = Revision(
    problem: Id, number: int, state: RevisionState, meta: Meta, pdf: Option<Id>, published: Option<Time>,
    tests: map<Id, TestCase>)

  datatype Preview = Preview(owner: Id, revision: Id, artifact: Id, expires: Time, committed: Option<Time>)

  datatype Problem = Problem(owner: Id, title: string, code: string)

  datatype Assignment = Assignment(series: Id, problem: Id, revision: Id, code: string, position: int)

  /**
    How far a transaction has come.  `Editing` follows a successful LockDraft; `Importing` is a
    ZIP import in its loop, `Imported` one that has set the mark; `Closed` has published;
    `Numbering` holds a problem row for a clone and `Cloning` is copying tests (`copies` maps each
    copy to its source); `Creating` has
    inserted a problem with its first revision; `Expiring` belongs to the collector.
  */
  datatype Op =
    | Fresh
    | Editing(rev: Id)
    | Importing(rev: Id, preview: Id, base: int, pairs: seq<Importer.TestPair>, ids: seq<Id>)
    | Imported(rev: Id, preview: Id, base: int, pairs: seq<Importer.TestPair>, ids: seq<Id>)
    | Closed(rev: Id)
    | Numbering(problem: Id)
    | Cloning(problem: Id, from: Id, to: Id, copies: map<Id, Id>)
    | Creating(problem: Id, rev: Id)
    | Expiring

  datatype Tx = Tx(
    op: Op, problems: map<Id, Problem>, revs: map<Id, Revision>, previews: map<Id, Preview>, expired: set<Id>)

  /** An Assign that has read its revision and not yet inserted. */
  datatype Check = Check(rev: Id, problem: Id)

  datatype State = State(
    parse: Parser, next: Id,
    problems: map<Id, Problem>, revs: map<Id, Revision>, previews: map<Id, Preview>, assigns: map<Id, Assignment>,
    txs: map<Id, Tx>, checks: map<Id, Check>)

  datatype Stmt =
    | SLockDraft(rev: Id)
    | SPutTest(id: Id, row: TestCase)
    | SDropTest(id: Id)
    | SPutRevision(meta: Meta, pdf: Option<Id>)
    | SPutPdf(artifact: Id)
    | SPublish(now: Time)
    | SAddPreview(owner: Id, artifact: Id, expires: Time)
    | SStartImport(preview: Id, owner: Id, now: Time, base: int, pairs: seq<Importer.TestPair>)
    | SImportPair(input: Id, output: Id)
    | SFinishImport(now: Time)
    | SLockProblem(problem: Id)
    | SCloneLatest(from: Id)
    | SCloneTest(src: Id)
    | SNewProblem(entry: Problem, meta: Meta)
    | SExpire(cutoff: Time)

  /** Statements outside transactions: the two halves of Assign, unassigning, reordering and editing a problem. */
  datatype Single =
    | CheckAssign(t: Id, rev: Id)
    | Assign(t: Id, series: Id, code: string, position: int)
    | Unassign(id: Id)
    | Move(id: Id, position: int)
    | EditProblem(problem: Id, title: string, code: string)

  // ----- locks -----

  predicate LocksRevision(x: Tx, r: Id) {
    match x.op
    case Editing(rev) => r == rev
    case Importing(rev, _, _, _, _) => r == rev
    case Imported(rev, _, _, _, _) => r == rev
    case Closed(rev) => r == rev
    case Cloning(_, from, to, _) => r == from || r == to
    case Creating(_, rev) => r == rev
    case _ => false
  }

  predicate LocksProblem(x: Tx, p: Id) {
    match x.op
    case Numbering(problem) => p == problem
    case Cloning(problem, _, _, _) => p == problem
    case Creating(problem, _) => p == problem
    case _ => false
  }

  predicate LocksPreview(x: Tx, p: Id) {
    p in x.previews || p in x.expired
  }

  /** The preview a ZIP import has read; reading it takes no lock. */
  predicate ImportsPreview(x: Tx, p: Id) {
    (x.op.Importing? || x.op.Imported?) && x.op.preview == p
  }

  predicate RevFree(s: State, r: Id) {
    forall t :: t in s.txs ==> !LocksRevision(s.txs[t], r)
  }

  predicate ProblemFree(s: State, p: Id) {
    forall t :: t in s.txs ==> !LocksProblem(s.txs[t], p)
  }

  predicate PreviewFree(s: State, p: Id) {
    forall t :: t in s.txs ==> !LocksPreview(s.txs[t], p)
  }

  // ----- rows -----

  /** A revision as its transaction sees it. */
  function Current(s: State, t: Id, r: Id): Revision
    requires t in s.txs && r in s.revs
  {
    if r in s.txs[t].revs then s.txs[t].revs[r] else s.revs[r]
  }

  predicate RowOk(row: TestCase) {
    row.position >= 0 && (row.points.Some? ==> row.points.value >= 0) && Positive(row.limit)
  }

  predicate PositionFree(tests: map<Id, TestCase>, id: Id, position: int) {
    forall i :: i in tests && i != id ==> tests[i].position != position
  }

  /** COALESCE(MAX(position), -1). */
  predicate IsMaxPosition(tests: map<Id, TestCase>, base: int) {
    && (forall i :: i in tests ==> tests[i].position <= base)
    && (if tests == map[] then base == -1 else exists i :: i in tests && tests[i].position == base)
  }

  predicate IsLatest(revs: map<Id, Revision>, p: Id, r: Id) {
    r in revs && revs[r].problem == p && forall q :: q in revs && revs[q].problem == p ==> revs[q].number <= revs[r].number
  }

  /** The new draft before its tests are copied. */
  function NextDraft(from: Revision): Revision {
    Revision(from.problem, from.number + 1, Draft, from.meta, from.pdf, None, map[])
  }

  predicate HasStatement(r: Revision) {
    r.meta.statement != "" || r.pdf.Some?
  }

  /** PublishRevision validates what is stored once more, and wants a statement or a PDF. */
  predicate Publishable(r: Revision, parse: Parser) {
    Fits(Normalised(r.meta), parse) && HasStatement(r.(meta := Normalised(r.meta)))
  }

  const MAX_POSITION := 1073741824

  // ----- statements: each gives the state after it, or None while or because it cannot run -----

  predicate Edits(s: State, t: Id) {
    t in s.txs && s.txs[t].op.Editing? && s.txs[t].op.rev in s.revs
  }

  function WithTx(s: State, t: Id, x: Tx): State {
    s.(txs := s.txs[t := x])
  }

  /** The transaction replaces the revision it has locked. */
  function Write(s: State, t: Id, doc: Revision): State
    requires Edits(s, t)
  {
    WithTx(s, t, s.txs[t].(revs := s.txs[t].revs[s.txs[t].op.rev := doc]))
  }

  function Edited(s: State, t: Id): Revision
    requires Edits(s, t)
  {
    Current(s, t, s.txs[t].op.rev)
  }

  function LockDraft(s: State, t: Id, r: Id): Option<State> {
    if t in s.txs && s.txs[t].op.Fresh? && r in s.revs && s.revs[r].state.Draft? && RevFree(s, r)
    then Some(WithTx(s, t, s.txs[t].(op := Editing(r))))
    else None
  }

  /** An insert takes the next number; an update keeps the number of a test of this revision. */
  function PutTest(s: State, t: Id, id: Id, row: TestCase): Option<State> {
    if Edits(s, t) && RowOk(row) && (id in Edited(s, t).tests || id == s.next) && PositionFree(Edited(s, t).tests, id, row.position)
    then
      var doc := Edited(s, t);
      Some(Write(s, t, doc.(tests := doc.tests[id := row])).(next := if id == s.next then s.next + 1 else s.next))
    else None
  }

  function DropTest(s: State, t: Id, id: Id): Option<State> {
    if Edits(s, t) && id in Edited(s, t).tests
    then
      var doc := Edited(s, t);
      Some(Write(s, t, doc.(tests := doc.tests - {id})))
    else None
  }

  function PutRevision(s: State, t: Id, meta: Meta, pdf: Option<Id>): Option<State> {
    if Edits(s, t) && FixedPoint(meta, s.parse)
    then Some(Write(s, t, Edited(s, t).(meta := meta, pdf := pdf)))
    else None
  }

  function PutPdf(s: State, t: Id, artifact: Id): Option<State> {
    if Edits(s, t) then Some(Write(s, t, Edited(s, t).(pdf := Some(artifact)))) else None
  }

  function Publish(s: State, t: Id, now: Time): Option<State> {
    if Edits(s, t) && Publishable(Edited(s, t), s.parse)
    then
      var r, doc := s.txs[t].op.rev, Edited(s, t).(state := Published, published := Some(now));
      Some(WithTx(s, t, s.txs[t].(op := Closed(r), revs := s.txs[t].revs[r := doc])))
    else None
  }

  function AddPreview(s: State, t: Id, owner: Id, artifact: Id, expires: Time): Option<State> {
    if Edits(s, t)
    then
      var row := Preview(owner, s.txs[t].op.rev, artifact, expires, None);
      Some(WithTx(s, t, s.txs[t].(previews := s.txs[t].previews[s.next := row])).(next := s.next + 1))
    else None
  }

  /** The checks of CommitZIP on a preview that is not committed yet. */
  function StartImport(s: State, t: Id, p: Id, owner: Id, now: Time, base: int, pairs: seq<Importer.TestPair>): Option<State> {
    if && Edits(s, t) && s.txs[t].revs == map[] && s.txs[t].previews == map[]
       && p in s.previews && s.previews[p].owner == owner && s.previews[p].revision == s.txs[t].op.rev
       && s.previews[p].committed.None? && now < s.previews[p].expires
       && IsMaxPosition(s.revs[s.txs[t].op.rev].tests, base) && base <= MAX_POSITION
    then Some(WithTx(s, t, s.txs[t].(op := Importing(s.txs[t].op.rev, p, base, pairs, []))))
    else None
  }

  predicate Imports(s: State, t: Id) {
    t in s.txs && s.txs[t].op.Importing? && s.txs[t].op.rev in s.revs
  }

  function ImportedRow(op: Op, input: Id, output: Id): TestCase
    requires op.Importing?
  {
    TestCase(op.base + 1 + |op.ids|, false, None, None, input, output)
  }

  function ImportPair(s: State, t: Id, input: Id, output: Id): Option<State> {
    if Imports(s, t) && |s.txs[t].op.ids| < |s.txs[t].op.pairs|
    then
      var x := s.txs[t];
      var doc := Current(s, t, x.op.rev);
      var doc' := doc.(tests := doc.tests[s.next := ImportedRow(x.op, input, output)]);
      var op := Importing(x.op.rev, x.op.preview, x.op.base, x.op.pairs, x.op.ids + [s.next]);
      Some(WithTx(s, t, x.(op := op, revs := x.revs[x.op.rev := doc'])).(next := s.next + 1))
    else None
  }

  /** Setting the mark; it finds no row when the preview is gone. */
  function FinishImport(s: State, t: Id, now: Time): Option<State> {
    if Imports(s, t) && |s.txs[t].op.ids| == |s.txs[t].op.pairs| && forall u :: u in s.txs ==> s.txs[t].op.preview !in s.txs[u].expired
    then
      var x := s.txs[t];
      var p := x.op.preview;
      var marked := if p in s.previews then map[p := s.previews[p].(committed := Some(now))] else map[];
      Some(WithTx(s, t, x.(op := Imported(x.op.rev, p, x.op.base, x.op.pairs, x.op.ids), previews := marked)))
    else None
  }

  function LockProblem(s: State, t: Id, p: Id): Option<State> {
    if t in s.txs && s.txs[t].op.Fresh? && p in s.problems && ProblemFree(s, p)
    then Some(WithTx(s, t, s.txs[t].(op := Numbering(p))))
    else None
  }

  /** Locks the latest revision, reads it again and inserts the next draft. */
  function CloneLatest(s: State, t: Id, r: Id): Option<State> {
    if t in s.txs && s.txs[t].op.Numbering? && IsLatest(s.revs, s.txs[t].op.problem, r) && RevFree(s, r)
    then
      var x := s.txs[t].(op := Cloning(s.txs[t].op.problem, r, s.next, map[]), revs := map[s.next := NextDraft(s.revs[r])]);
      Some(WithTx(s, t, x).(next := s.next + 1))
    else None
  }

  predicate Clones(s: State, t: Id) {
    t in s.txs && s.txs[t].op.Cloning? && s.txs[t].op.from in s.revs && s.txs[t].op.to in s.txs[t].revs
  }

  function CloneTest(s: State, t: Id, src: Id): Option<State> {
    if Clones(s, t) && src in s.revs[s.txs[t].op.from].tests && src !in s.txs[t].op.copies.Values
    then
      var x := s.txs[t];
      var doc := x.revs[x.op.to];
      var doc' := doc.(tests := doc.tests[s.next := s.revs[x.op.from].tests[src]]);
      Some(WithTx(s, t, x.(op := x.op.(copies := x.op.copies[s.next := src]), revs := x.revs[x.op.to := doc'])).(next := s.next + 1))
    else None
  }

  /** The unique index on the code: no other problem has it, and nobody is about to insert it. */
  predicate CodeFree(s: State, p: Id, code: string) {
    && (forall q :: q in s.problems && q != p ==> s.problems[q].code != code)
    && (forall t :: t in s.txs ==> forall q :: q in s.txs[t].problems ==> s.txs[t].problems[q].code != code)
  }

  predicate ProblemRowOk(row: Problem) {
    row.title != "" && row.code != ""
  }

  function NewProblem(s: State, t: Id, row: Problem, meta: Meta): Option<State> {
    if t in s.txs && s.txs[t].op.Fresh? && FixedPoint(meta, s.parse) && ProblemRowOk(row) && CodeFree(s, s.next, row.code)
    then
      var p, r := s.next, s.next + 1;
      var doc := Revision(p, 1, Draft, meta, None, None, map[]);
      Some(WithTx(s, t, s.txs[t].(op := Creating(p, r), problems := map[p := row], revs := map[r := doc])).(next := s.next + 2))
    else None
  }

  function Outdated(s: State, cutoff: Time): set<Id> {
    set p | p in s.previews && s.previews[p].expires < cutoff
  }

  function Expire(s: State, t: Id, cutoff: Time): Option<State> {
    if t in s.txs && s.txs[t].op.Fresh? && forall p :: p in Outdated(s, cutoff) ==> PreviewFree(s, p)
    then Some(WithTx(s, t, s.txs[t].(op := Expiring, expired := Outdated(s, cutoff))))
    else None
  }

  function Exec(s: State, t: Id, stmt: Stmt): Option<State> {
    match stmt
    case SLockDraft(r) => LockDraft(s, t, r)
    case SPutTest(id, row) => PutTest(s, t, id, row)
    case SDropTest(id) => DropTest(s, t, id)
    case SPutRevision(meta, pdf) => PutRevision(s, t, meta, pdf)
    case SPutPdf(artifact) => PutPdf(s, t, artifact)
    case SPublish(now) => Publish(s, t, now)
    case SAddPreview(owner, artifact, expires) => AddPreview(s, t, owner, artifact, expires)
    case SStartImport(p, owner, now, base, pairs) => StartImport(s, t, p, owner, now, base, pairs)
    case SImportPair(input, output) => ImportPair(s, t, input, output)
    case SFinishImport(now) => FinishImport(s, t, now)
    case SLockProblem(p) => LockProblem(s, t, p)
    case SCloneLatest(r) => CloneLatest(s, t, r)
    case SCloneTest(src) => CloneTest(s, t, src)
    case SNewProblem(row, meta) => NewProblem(s, t, row, meta)
    case SExpire(cutoff) => Expire(s, t, cutoff)
  }

  function Begin(s: State, t: Id): State {
    s.(txs := s.txs[t := Tx(Fresh, map[], map[], map[], {})])
  }

  /** A transaction function returns without error only when its loop is done. */
  predicate CanCommit(s: State, t: Id) {
    && t in s.txs
    && !s.txs[t].op.Importing? && !s.txs[t].op.Numbering?
    && (s.txs[t].op.Cloning? ==>
          s.txs[t].op.from in s.revs && s.txs[t].op.copies.Values == s.revs[s.txs[t].op.from].tests.Keys)
  }

  function Commit(s: State, t: Id): State
    requires t in s.txs
  {
    var x := s.txs[t];
    s.(problems := s.problems + x.problems, revs := s.revs + x.revs, previews := s.previews - x.expired + x.previews,
       txs := s.txs - {t})
  }

  function Abort(s: State, t: Id): State {
    s.(txs := s.txs - {t})
  }

  function Crash(s: State): State {
    s.(txs := map[], checks := map[])
  }

  predicate SingleEnabled(s: State, a: Single) {
    match a
    case CheckAssign(t, r) => r in s.revs && s.revs[r].state.Published?
    case Assign(t, series, code, position) =>
      && t in s.checks && position >= 0 && code != ""
      && forall i :: i in s.assigns && s.assigns[i].series == series ==> s.assigns[i].code != code && s.assigns[i].position != position
    case Unassign(id) => id in s.assigns
    case Move(id, position) =>
      && id in s.assigns && position >= 0
      && forall i :: i in s.assigns && i != id && s.assigns[i].series == s.assigns[id].series ==> s.assigns[i].position != position
    case EditProblem(p, title, code) =>
      p in s.problems && ProblemFree(s, p) && title != "" && code != "" && CodeFree(s, p, code)
  }

  function SingleApply(s: State, a: Single): State
    requires SingleEnabled(s, a)
  {
    match a
    case CheckAssign(t, r) => s.(checks := s.checks[t := Check(r, s.revs[r].problem)])
    case Assign(t, series, code, position) =>
      s.(assigns := s.assigns[s.next := Assignment(series, s.checks[t].problem, s.checks[t].rev, code, position)],
         next := s.next + 1, checks := s.checks - {t})
    case Unassign(id) => s.(assigns := s.assigns - {id})
    case Move(id, position) => s.(assigns := s.assigns[id := s.assigns[id].(position := position)])
    case EditProblem(p, title, code) => s.(problems := s.problems[p := s.problems[p].(title := title, code := code)])
  }
}
