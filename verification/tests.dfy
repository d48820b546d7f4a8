/** Editing the content of a draft (`SaveTest`, `DeleteTest` and `UploadPDF` in internal/content/files.go). */
module Tests {
  import opened Base
  import opened FileErrors
  import opened World
  import opened System
  import Disk
  import DiskSafety
  import Drafts
  import Files
  import Imports
  import Rows
  import RowsSafety
  import Store
  import Validation
  import WorldSafety

  datatype TestInput = TestInput(
    position: int, sample: bool, points: Option<int>, limit: Option<int>, input: Bytes, output: Bytes)

  predicate MetadataOk(t: TestInput) {
    t.position >= 0 && (t.points.Some? ==> t.points.value >= 0) && (t.limit.Some? ==> t.limit.value > 0)
  }

  function RowOf(t: TestInput, input: Id, output: Id): Rows.TestCase {
    Rows.TestCase(t.position, t.sample, t.points, t.limit, input, output)
  }

  /** The row a call writes: the test it names, or a new one. */
  function Target(w: World, test: Option<Id>): Id {
    if test.Some? then test.value else w.rows.next
  }

  /** When nothing goes wrong underneath, this is exactly when a test can be saved. */
  ghost predicate CanSave(w: World, owner: Id, rev: Id, test: Option<Id>, t: TestInput, maxBytes: int) {
    && Files.IsDraft(w, rev) && MetadataOk(t)
    && (test.Some? ==> test.value in w.rows.revs[rev].tests)
    && (forall i :: i in w.rows.revs[rev].tests && test != Some(i) ==> w.rows.revs[rev].tests[i].position != t.position)
    && Store.Accepts(owner, maxBytes) && |t.input| <= maxBytes && |t.output| <= maxBytes
    && Store.HasRoom(w, |t.input| + |t.output|)
  }

  /** One test of one draft is new, with two new artifacts that have its content; nothing else has changed. */
  ghost predicate TestSaved(w: World, w': World, rev: Id, id: Id, owner: Id, t: TestInput) {
    && rev in w.rows.revs && rev in w'.rows.revs && id in w'.rows.revs[rev].tests
    && var row := w'.rows.revs[rev].tests[id];
       && row.position == t.position && row.sample == t.sample && row.points == t.points && row.limit == t.limit
       && w'.rows.revs == w.rows.revs[rev := w.rows.revs[rev].(tests := w.rows.revs[rev].tests[id := row])]
       && w'.rows.problems == w.rows.problems && w'.rows.previews == w.rows.previews && w'.rows.assigns == w.rows.assigns
       && Files.NewArtifact(w, w', row.input, owner, t.input) && Files.NewArtifact(w, w', row.output, owner, t.output)
       && row.input != row.output
       && w'.disk.arts == w.disk.arts[row.input := w'.disk.arts[row.input]][row.output := w'.disk.arts[row.output]]
       && forall name :: name in w.disk.files ==> name in w'.disk.files && w'.disk.files[name] == w.disk.files[name]
  }

  /** Both files are saved and nothing else has happened since the draft was locked. */
  ghost predicate BothSaved(w0: World, w: World, t: Id, rev: Id, input: Id, output: Id, owner: Id, test: TestInput) {
    && Files.Ahead(w0, w, t) && w.rows == Files.Locked(w0, t, rev).rows && input != output
    && Files.HasSaved(w, t, input, owner, test.input) && Files.HasSaved(w, t, output, owner, test.output)
    && w.disk.txs[t] == Disk.Tx(w0.disk.clock, w.disk.txs[t].saved, {}, None, false)
    && w.disk.txs[t].saved.Keys == {input, output}
  }

  lemma SavedBoth(w0: World, w: World, w': World, t: Id, rev: Id, input: Id, output: Id, owner: Id, test: TestInput)
    requires Files.Added(Files.Locked(w0, t, rev), w, t, input) && Files.HasSaved(w, t, input, owner, test.input)
    requires Files.Added(w, w', t, output) && Files.HasSaved(w', t, output, owner, test.output) && Files.Ahead(w0, w', t)
    ensures BothSaved(w0, w', t, rev, input, output, owner, test)
  {
  }

  lemma RowPut(s: Rows.State, t: Id, rev: Id, id: Id, row: Rows.TestCase, s1: Rows.State)
    requires rev in s.revs && s.txs == map[t := Rows.Tx(Rows.Editing(rev), map[], map[], map[], {})]
    requires Rows.PutTest(s, t, id, row) == Some(s1)
    ensures t in s1.txs
    ensures var s' := Rows.Commit(s1, t);
            && s'.revs == s.revs[rev := s.revs[rev].(tests := s.revs[rev].tests[id := row])]
            && s'.problems == s.problems && s'.previews == s.previews && s'.assigns == s.assigns && s'.txs == map[]
  {
  }

  lemma ArtifactsCommitted(w0: World, w: World, t: Id, rev: Id, input: Id, output: Id, owner: Id, test: TestInput, d: Disk.State)
    requires BothSaved(w0, w, t, rev, input, output, owner, test) && DiskSafety.Ids(w.disk)
    requires Disk.Enabled(w.disk, Disk.Commit(t)) && d == Disk.Apply(w.disk, Disk.Commit(t))
    ensures input in d.arts && output in d.arts && d.files == w.disk.files && d.txs == w.disk.txs - {t}
    ensures d.arts == w0.disk.arts[input := d.arts[input]][output := d.arts[output]]
    ensures input !in w0.disk.arts && output !in w0.disk.arts
    ensures d.arts[input] == w.disk.txs[t].saved[input] && d.arts[output] == w.disk.txs[t].saved[output]
  {
    assert DiskSafety.Saves(w.disk, t, input) && DiskSafety.Saves(w.disk, t, output);
  }

  lemma PutCommits(
    w0: World, w: World, s1: Rows.State, w': World, t: Id, rev: Id, id: Id, input: Id, output: Id, owner: Id, test: TestInput)
    requires BothSaved(w0, w, t, rev, input, output, owner, test) && DiskSafety.Ids(w.disk) && rev in w0.rows.revs
    requires Rows.PutTest(w.rows, t, id, RowOf(test, input, output)) == Some(s1)
    requires Disk.Enabled(w.disk, Disk.Commit(t)) && t in s1.txs
    requires w'.disk == Disk.Apply(w.disk, Disk.Commit(t)) && w'.rows == Rows.Commit(s1, t)
    ensures TestSaved(w0, w', rev, id, owner, test)
  {
    RowPut(w.rows, t, rev, id, RowOf(test, input, output), s1);
    ArtifactsCommitted(w0, w, t, rev, input, output, owner, test, w'.disk);
  }

  /** The first check that refuses a call; anything later is a failure of the store or of a constraint. */
  function Refusal(w: World, rev: Id, test: Option<Id>, t: TestInput): Option<Error> {
    if rev !in w.rows.revs then Some(NotFound)
    else if !MetadataOk(t) then Some(Invalid)
    else if !w.rows.revs[rev].state.Draft? then Some(Conflict)
    else if test.Some? && test.value !in w.rows.revs[rev].tests then Some(NotFound)
    else None
  }

  /**
    Saves a new test or replaces one.  Whatever fails, the tables and the files are as they were; and
    unless the store or the database fails, it succeeds exactly when the call is admissible.
  */
  method SaveTest(sys: Server, t: Id, owner: Id, rev: Id, test: Option<Id>, input: TestInput, maxBytes: int, faults: bool)
    returns (r: Result<Id, Error>)
    requires Idle(sys.w)
    modifies sys
    ensures Idle(sys.w)
    ensures r.Err? ==> Unchanged(old(sys.w), sys.w)
    ensures var refusal := Refusal(old(sys.w), rev, test, input);
            if refusal.Some? then r == Err(refusal.value) else r.Err? ==> r.error.Failed?
    ensures r.Ok? ==> r.value == Target(old(sys.w), test) && TestSaved(old(sys.w), sys.w, rev, r.value, owner, input)
    ensures !faults ==> (r.Ok? <==> CanSave(old(sys.w), owner, rev, test, input, maxBytes))
  {
    hide Imports.Good;
    var w0 := sys.w;
    if rev !in sys.w.rows.revs { return Err(NotFound); }
    if input.position < 0 || (input.points.Some? && input.points.value < 0) || (input.limit.Some? && input.limit.value <= 0) {
      return Err(Invalid);
    }
    var draft := Files.OpenDraft(sys, t, rev, faults);
    if !draft { return Err(Conflict); }
    if test.Some? && test.value !in sys.w.rows.revs[rev].tests {
      Files.Rollback(sys, t, w0, faults);
      return Err(NotFound);
    }
    var ids := SaveBoth(sys, t, owner, rev, input, maxBytes, w0, faults);
    if ids.Err? {
      Files.Rollback(sys, t, w0, faults);
      return Err(Failed(ids.error));
    }
    var id := Target(w0, test);
    NextTestIsNew(w0, rev);
    var ok := PutAndCommit(sys, t, owner, rev, id, input, ids.value.0, ids.value.1, w0, faults);
    r := if ok then Ok(id) else Err(Failed(Store.Storage));
  }

  lemma {:induction false} NextTestIsNew(w: Sound, rev: Id)
    requires rev in w.rows.revs
    ensures w.rows.next !in w.rows.revs[rev].tests
  {
    assert RowsSafety.DocOk(w.rows.revs[rev], w.rows.parse, w.rows.next);
  }

  method SaveBoth(sys: Server, t: Id, owner: Id, rev: Id, input: TestInput, maxBytes: int, ghost w0: World, faults: bool)
    returns (r: Result<(Id, Id), Store.Error>)
    requires sys.w == Files.Locked(w0, t, rev) && Working(sys.w, t) && Files.Ahead(w0, sys.w, t)
    modifies sys
    ensures Working(sys.w, t) && Files.Ahead(w0, sys.w, t)
    ensures r.Ok? ==> BothSaved(w0, sys.w, t, rev, r.value.0, r.value.1, owner, input)
    ensures !faults ==> (r.Ok? <==>
      && Store.Accepts(owner, maxBytes) && |input.input| <= maxBytes && |input.output| <= maxBytes
      && Store.HasRoom(w0, |input.input| + |input.output|))
  {
    hide Imports.Good;
    Validation.NotBlank("input.txt", 0);
    Validation.NotBlank("output.txt", 0);
    var first := Files.SaveWithin(sys, t, owner, "input.txt", input.input, maxBytes, w0, faults);
    if first.Err? { return Err(first.error); }
    ghost var w1 := sys.w;
    var second := Files.SaveWithin(sys, t, owner, "output.txt", input.output, maxBytes, w0, faults);
    if second.Err? { return Err(second.error); }
    SavedBoth(w0, w1, sys.w, t, rev, first.value, second.value, owner, input);
    r := Ok((first.value, second.value));
  }

  method PutAndCommit(
    sys: Server, t: Id, owner: Id, rev: Id, id: Id, input: TestInput, in_: Id, out: Id, ghost w0: World, faults: bool)
    returns (ok: bool)
    requires Working(sys.w, t) && BothSaved(w0, sys.w, t, rev, in_, out, owner, input) && Files.IsDraft(w0, rev) && MetadataOk(input)
    requires id in w0.rows.revs[rev].tests || id == w0.rows.next
    modifies sys
    ensures Idle(sys.w)
    ensures ok ==> TestSaved(w0, sys.w, rev, id, owner, input)
    ensures !ok ==> Unchanged(w0, sys.w)
    ensures !faults ==> (ok <==> Rows.PositionFree(w0.rows.revs[rev].tests, id, input.position))
  {
    hide Imports.Good;
    ghost var w := sys.w;
    Files.StoreIds(sys.w);
    ok := PutRow(sys, t, id, RowOf(input, in_, out), w0, rev);
    var fault: bool := *;
    if !ok || (faults && fault) {
      Files.Rollback(sys, t, w0, faults);
      return false;
    }
    Finish(sys, t, owner, rev, id, input, in_, out, w0, w);
  }

  method Finish(
    sys: Server, t: Id, ghost owner: Id, ghost rev: Id, ghost id: Id, ghost input: TestInput, ghost in_: Id, ghost out: Id,
    ghost w0: World, ghost w: World)
    requires BothSaved(w0, w, t, rev, in_, out, owner, input) && rev in w0.rows.revs && DiskSafety.Ids(w.disk)
    requires Rows.PutTest(w.rows, t, id, RowOf(input, in_, out)) == Some(sys.w.rows) && sys.w.disk == w.disk
    requires Working(sys.w, t) && Rows.CanCommit(sys.w.rows, t)
    modifies sys
    ensures Idle(sys.w) && TestSaved(w0, sys.w, rev, id, owner, input)
  {
    hide Imports.Good;
    ghost var s1 := sys.w.rows;
    sys.End(t);
    PutCommits(w0, w, s1, sys.w, t, rev, id, in_, out, owner, input);
  }

  method PutRow(sys: Server, t: Id, id: Id, row: Rows.TestCase, ghost w0: World, ghost rev: Id) returns (ok: bool)
    requires Working(sys.w, t) && Files.Ahead(w0, sys.w, t) && sys.w.rows == Files.Locked(w0, t, rev).rows
    requires !sys.w.disk.txs[t].failed && Saved(sys.w, t, row.input) && Saved(sys.w, t, row.output)
    requires Files.IsDraft(w0, rev) && Rows.RowOk(row) && (id in w0.rows.revs[rev].tests || id == w0.rows.next)
    modifies sys
    ensures Working(sys.w, t) && Files.Ahead(w0, sys.w, t) && sys.w.disk == old(sys.w).disk
    ensures ok ==> Rows.PutTest(old(sys.w).rows, t, id, row) == Some(sys.w.rows) && Rows.CanCommit(sys.w.rows, t)
    ensures ok <==> Rows.PositionFree(w0.rows.revs[rev].tests, id, row.position)
  {
    hide Imports.Good, Files.Ahead, Rows.PositionFree, Rows.PutTest, Rows.RowOk, Warranted, Saved, DiskSafety.Ids, Rows.CanCommit, Rows.Exec;
    ghost var w := sys.w;
    Files.StoreIds(sys.w);
    MayPut(sys.w, t, id, row);
    PutRuns(w0, t, rev, id, row);
    ok := sys.Exec(t, Rows.SPutTest(id, row));
    if ok { Files.AheadRan(w0, w, sys.w, t); }
  }

  lemma {:induction false} MayPut(w: World, t: Id, id: Id, row: Rows.TestCase)
    requires DiskSafety.Ids(w.disk) && Saved(w, t, row.input) && Saved(w, t, row.output)
    ensures Warranted(w, t, Rows.SPutTest(id, row))
  {
    WorldSafety.OwnSavedLinkable(w, t, row.input);
    WorldSafety.OwnSavedLinkable(w, t, row.output);
  }

  lemma {:induction false} PutRuns(w0: World, t: Id, rev: Id, id: Id, row: Rows.TestCase)
    requires Files.IsDraft(w0, rev) && Rows.RowOk(row) && (id in w0.rows.revs[rev].tests || id == w0.rows.next)
    ensures var r := Rows.Exec(Files.Locked(w0, t, rev).rows, t, Rows.SPutTest(id, row));
            && (r.Some? <==> Rows.PositionFree(w0.rows.revs[rev].tests, id, row.position))
            && (r.Some? ==> Rows.CanCommit(r.value, t)
                            && r == Rows.PutTest(Files.Locked(w0, t, rev).rows, t, id, row))
  {
    hide Rows.PositionFree;
  }

  // ----- DeleteTest -----

  ghost predicate TestDeleted(w: World, w': World, rev: Id, test: Id) {
    && rev in w.rows.revs && test in w.rows.revs[rev].tests
    && w'.rows.revs == w.rows.revs[rev := w.rows.revs[rev].(tests := w.rows.revs[rev].tests - {test})]
    && w'.rows.problems == w.rows.problems && w'.rows.previews == w.rows.previews && w'.rows.assigns == w.rows.assigns
    && w'.disk.arts == w.disk.arts && w'.disk.files == w.disk.files
  }

  /** The files of a deleted test stay: other revisions may share them, and the collector takes care of the rest. */
  method DeleteTest(sys: Server, t: Id, rev: Id, test: Id, faults: bool) returns (r: Result<(), Error>)
    requires Idle(sys.w)
    modifies sys
    ensures Idle(sys.w)
    ensures r.Err? ==> Unchanged(old(sys.w), sys.w)
    ensures r.Ok? ==> TestDeleted(old(sys.w), sys.w, rev, test)
    ensures rev !in old(sys.w).rows.revs ==> r == Err(NotFound)
    ensures rev in old(sys.w).rows.revs && !Files.IsDraft(old(sys.w), rev) ==> r == Err(Conflict)
    ensures !faults && Files.IsDraft(old(sys.w), rev) && r.Err? ==> r.error == NotFound
    ensures !faults ==> (r.Ok? <==> Files.IsDraft(old(sys.w), rev) && test in old(sys.w).rows.revs[rev].tests)
  {
    hide Imports.Good;
    ghost var w0 := sys.w;
    if rev !in sys.w.rows.revs { return Err(NotFound); }
    var draft := Files.OpenDraft(sys, t, rev, faults);
    if !draft { return Err(Conflict); }
    var fault: bool := *;
    if test !in sys.w.rows.revs[rev].tests || (faults && fault) {
      Files.Rollback(sys, t, w0, faults);
      return Err(if faults && fault then Failed(Store.Storage) else NotFound);
    }
    ghost var doc := sys.w.rows.revs[rev];
    DropRuns(sys.w.rows, t, rev, test);
    var ok := sys.Exec(t, Rows.SDropTest(test));
    if !ok { assert false; }
    Drafts.CommitDraft(sys, t, w0, rev, doc.(tests := doc.tests - {test}));
    r := Ok(());
  }

  lemma DropRuns(s: Rows.State, t: Id, rev: Id, test: Id)
    requires rev in s.revs && s.txs == map[t := Rows.Tx(Rows.Editing(rev), map[], map[], map[], {})]
    requires test in s.revs[rev].tests
    ensures Rows.Exec(s, t, Rows.SDropTest(test)).Some?
  {
  }

  // ----- UploadPDF -----

  const PDF_HEADER: Bytes := [0x25, 0x50, 0x44, 0x46, 0x2D]

  /** The file begins with the characters %PDF-. */
  predicate SaysPdf(source: Bytes) {
    |source| >= 5 && source[0] == 37 && source[1] == 80 && source[2] == 68 && source[3] == 70 && source[4] == 45
  }

  predicate IsPdf(source: Bytes) {
    |source| >= 5 && source[..5] == PDF_HEADER
  }

  ghost predicate PdfUploaded(w: World, w': World, rev: Id, id: Id, owner: Id, source: Bytes) {
    && rev in w.rows.revs && Files.OnlyArtifact(w, w', id, owner, source) && SameSetup(w, w')
    && w'.rows.revs == w.rows.revs[rev := w.rows.revs[rev].(pdf := Some(id))]
    && w'.rows.problems == w.rows.problems && w'.rows.previews == w.rows.previews && w'.rows.assigns == w.rows.assigns
  }

  method UploadPDF(sys: Server, t: Id, owner: Id, rev: Id, source: Bytes, maxBytes: int, faults: bool) returns (r: Result<Id, Error>)
    requires Idle(sys.w)
    modifies sys
    ensures Idle(sys.w)
    ensures r.Err? ==> Unchanged(old(sys.w), sys.w)
    ensures r.Ok? ==> PdfUploaded(old(sys.w), sys.w, rev, r.value, owner, source)
    ensures r.Err? ==> (r.error == NotFound <==> rev !in old(sys.w).rows.revs)
    ensures r.Err? ==> (r.error == Invalid <==> rev in old(sys.w).rows.revs && !SaysPdf(source))
    ensures r.Err? ==> (r.error == Conflict <==> rev in old(sys.w).rows.revs && SaysPdf(source) && !Files.IsDraft(old(sys.w), rev))
    ensures !faults ==>
      (r.Ok? <==>
      && Files.IsDraft(old(sys.w), rev) && SaysPdf(source)
      && Store.Accepts(owner, maxBytes) && |source| <= maxBytes && Store.HasRoom(old(sys.w), |source|))
  {
    hide Imports.Good;
    ghost var w0 := sys.w;
    if rev !in sys.w.rows.revs { return Err(NotFound); }
    if !IsPdf(source) { return Err(Invalid); }
    var draft := Files.OpenDraft(sys, t, rev, faults);
    if !draft { return Err(Conflict); }
    Validation.NotBlank("statement.pdf", 0);
    var item := Files.SaveWithin(sys, t, owner, "statement.pdf", source, maxBytes, w0, faults);
    var fault: bool := *;
    if item.Err? || (faults && fault) {
      Files.Rollback(sys, t, w0, faults);
      return Err(Failed(if item.Err? then item.error else Store.Storage));
    }
    AttachPdf(sys, t, owner, rev, item.value, source, w0);
    r := Ok(item.value);
  }

  method AttachPdf(sys: Server, t: Id, ghost owner: Id, ghost rev: Id, id: Id, ghost source: Bytes, ghost w0: World)
    requires Files.OneSaved(w0, sys.w, t, rev, id, owner, source) && Files.IsDraft(w0, rev)
    modifies sys
    ensures Idle(sys.w) && PdfUploaded(w0, sys.w, rev, id, owner, source)
  {
    hide Imports.Good;
    ghost var w := sys.w;
    Files.StoreIds(sys.w);
    WorldSafety.OwnSavedLinkable(sys.w, t, id);
    PdfPut(sys.w.rows, t, rev, id);
    var ok := sys.Exec(t, Rows.SPutPdf(id));
    if !ok { assert false; }
    sys.End(t);
    Files.OneCommitted(w0, w, t, rev, id, owner, source, sys.w);
  }

  lemma PdfPut(s: Rows.State, t: Id, rev: Id, id: Id)
    requires rev in s.revs && s.txs == map[t := Rows.Tx(Rows.Editing(rev), map[], map[], map[], {})]
    ensures var r := Rows.Exec(s, t, Rows.SPutPdf(id));
            && r.Some? && Rows.CanCommit(r.value, t)
            && var s' := Rows.Commit(r.value, t);
               s'.revs == s.revs[rev := s.revs[rev].(pdf := Some(id))]
               && s'.problems == s.problems && s'.previews == s.previews && s'.assigns == s.assigns
  {
  }
}
