/** Previewing and committing an archive of tests (`PreviewZIP` and `CommitZIP` in internal/content/files.go). */
module Zip {
  import opened Base
  import opened FileErrors
  import opened World
  import opened System
  import Disk
  import DiskBounds
  import DiskSafety
  import Files
  import Importer
  import ImportRuns
  import Imports
  import Rows
  import RowsSafety
  import Store
  import Validation
  import WorldRuns
  import WorldSafety

  // ----- the loop of CommitZIP -----

  /** The import is under way and has inserted a test for each of the first `i` pairs. */
  ghost predicate ImportingAt(w0: World, w: World, t: Id, rev: Id, p: Id, base: int, pairs: seq<Importer.TestPair>, i: nat) {
    && Working(w, t) && Files.Ahead(w0, w, t) && !w.disk.txs[t].failed && w.disk.txs[t].cutoff.None?
    && var op := w.rows.txs[t].op;
       op.Importing? && op == Rows.Importing(rev, p, base, pairs, op.ids) && |op.ids| == i <= |pairs|
  }

  function PairBytes(pairs: seq<Importer.TestPair>): nat {
    if pairs == [] then 0
    else
      var last := pairs[|pairs| - 1];
      PairBytes(pairs[..|pairs| - 1]) + |last.input| + |last.output|
  }

  predicate PairFits(pair: Importer.TestPair, maxBytes: int) {
    |pair.input| <= maxBytes && |pair.output| <= maxBytes
  }

  /** Each file is within the limit for one artifact, and together they fit what is left of the quota. */
  ghost predicate PairsFit(w: World, owner: Id, pairs: seq<Importer.TestPair>, maxBytes: int) {
    && (forall k :: 0 <= k < |pairs| ==> PairFits(pairs[k], maxBytes))
    && (pairs == [] || (Store.Accepts(owner, maxBytes) && Store.HasRoom(w, PairBytes(pairs))))
  }

  lemma {:induction false} PairBytesGrow(pairs: seq<Importer.TestPair>, i: nat)
    requires i <= |pairs|
    ensures PairBytes(pairs[..i]) <= PairBytes(pairs)
    decreases |pairs| - i
  {
    if i < |pairs| {
      PairBytesGrow(pairs, i + 1);
      assert pairs[..i + 1][..i] == pairs[..i];
    } else {
      assert pairs[..i] == pairs;
    }
  }

  /** Both files of a pair, then its row. */
  method ImportOne(
    sys: Server, t: Id, owner: Id, ghost rev: Id, ghost p: Id, ghost base: int, pairs: seq<Importer.TestPair>, i: nat, maxBytes: int,
    ghost w0: World, faults: bool)
    returns (r: Result<(), Store.Error>)
    requires ImportingAt(w0, sys.w, t, rev, p, base, pairs, i) && i < |pairs|
    modifies sys
    ensures r.Ok? ==> ImportingAt(w0, sys.w, t, rev, p, base, pairs, i + 1)
    ensures r.Err? ==> Working(sys.w, t) && Files.Ahead(w0, sys.w, t)
    ensures r.Ok? ==>
      DiskBounds.Total(sys.w.disk.files) == DiskBounds.Total(old(sys.w).disk.files) + |pairs[i].input| + |pairs[i].output|
    ensures !faults ==>
      (r.Ok? <==>
        && Store.Accepts(owner, maxBytes) && PairFits(pairs[i], maxBytes)
        && Store.HasRoom(old(sys.w), |pairs[i].input| + |pairs[i].output|))
  {
    hide Imports.Good;
    var input, output := pairs[i].name + ".in", pairs[i].name + ".out";
    Validation.NotBlank(input, |pairs[i].name|);
    Validation.NotBlank(output, |pairs[i].name|);
    var first := Files.SaveWithin(sys, t, owner, input, pairs[i].input, maxBytes, w0, faults);
    if first.Err? { return Err(first.error); }
    var second := Files.SaveWithin(sys, t, owner, output, pairs[i].output, maxBytes, w0, faults);
    if second.Err? { return Err(second.error); }
    var fault: bool := *;
    if faults && fault { return Err(Store.Storage); }
    InsertPair(sys, t, first.value, second.value, rev, p, base, pairs, i, w0);
    r := Ok(());
  }

  method InsertPair(
    sys: Server, t: Id, input: Id, output: Id, ghost rev: Id, ghost p: Id, ghost base: int, ghost pairs: seq<Importer.TestPair>,
    ghost i: nat, ghost w0: World)
    requires ImportingAt(w0, sys.w, t, rev, p, base, pairs, i) && i < |pairs| && ImportsNext(sys.w, t, input, output)
    modifies sys
    ensures ImportingAt(w0, sys.w, t, rev, p, base, pairs, i + 1) && sys.w.disk == old(sys.w).disk
  {
    hide Imports.Good;
    ghost var w := sys.w;
    LockedExists(sys.w, t);
    var ok := sys.Exec(t, Rows.SImportPair(input, output));
    if !ok { assert false; }
    Files.AheadRan(w0, w, sys.w, t);
  }

  lemma LockedExists(w: Sound, t: Id)
    requires Imports.IsImport(w, t)
    ensures w.rows.txs[t].op.rev in w.rows.revs
  {
    assert RowsSafety.TxOk(w.rows, w.rows.txs[t]) && RowsSafety.ImportOk(w.rows, w.rows.txs[t]);
  }

  /** The whole loop: it fails only at a pair that does not fit, or at a fault. */
  method ImportAll(
    sys: Server, t: Id, owner: Id, ghost rev: Id, ghost p: Id, ghost base: int, pairs: seq<Importer.TestPair>, maxBytes: int,
    ghost w0: World, faults: bool)
    returns (r: Result<(), Store.Error>)
    requires ImportingAt(w0, sys.w, t, rev, p, base, pairs, 0)
    requires DiskBounds.Total(sys.w.disk.files) == DiskBounds.Total(w0.disk.files)
    modifies sys
    ensures r.Ok? ==> ImportingAt(w0, sys.w, t, rev, p, base, pairs, |pairs|)
    ensures r.Err? ==> Working(sys.w, t) && Files.Ahead(w0, sys.w, t)
    ensures !faults ==> (r.Ok? <==> PairsFit(w0, owner, pairs, maxBytes))
  {
    hide Imports.Good, ImportingAt, Store.HasRoom;
    for i := 0 to |pairs|
      invariant ImportingAt(w0, sys.w, t, rev, p, base, pairs, i)
      invariant DiskBounds.Total(sys.w.disk.files) == DiskBounds.Total(w0.disk.files) + PairBytes(pairs[..i])
      invariant !faults ==> PairsFit(w0, owner, pairs[..i], maxBytes)
    {
      NextPair(pairs, i);
      RoomLeft(w0, sys.w, t, rev, p, base, pairs, i, |pairs[i].input| + |pairs[i].output|);
      if PairsFit(w0, owner, pairs[..i], maxBytes) { FitsSoFar(w0, owner, pairs, i, maxBytes); }
      r := ImportOne(sys, t, owner, rev, p, base, pairs, i, maxBytes, w0, faults);
      if r.Err? { return; }
    }
    assert pairs[..|pairs|] == pairs;
    r := Ok(());
  }

  /** The room there is now is what those before have left. */
  lemma {:induction false} RoomLeft(
    w0: World, w: World, t: Id, rev: Id, p: Id, base: int, pairs: seq<Importer.TestPair>, i: nat, bytes: nat)
    requires ImportingAt(w0, w, t, rev, p, base, pairs, i)
    requires DiskBounds.Total(w.disk.files) == DiskBounds.Total(w0.disk.files) + PairBytes(pairs[..i])
    ensures Store.HasRoom(w, bytes) <==> Store.HasRoom(w0, PairBytes(pairs[..i]) + bytes)
  {
  }

  lemma NextPair(pairs: seq<Importer.TestPair>, i: nat)
    requires i < |pairs|
    ensures pairs[..i + 1] == pairs[..i] + [pairs[i]]
    ensures PairBytes(pairs[..i + 1]) == PairBytes(pairs[..i]) + |pairs[i].input| + |pairs[i].output|
  {
  }

  /** A pair that does not fit after those before it keeps the whole archive from fitting. */
  lemma {:induction false} FitsSoFar(w: World, owner: Id, pairs: seq<Importer.TestPair>, i: nat, maxBytes: int)
    requires i < |pairs| && PairsFit(w, owner, pairs[..i], maxBytes)
    ensures PairsFit(w, owner, pairs[..i + 1], maxBytes) <==>
      && Store.Accepts(owner, maxBytes) && PairFits(pairs[i], maxBytes)
      && Store.HasRoom(w, PairBytes(pairs[..i]) + |pairs[i].input| + |pairs[i].output|)
    ensures PairsFit(w, owner, pairs, maxBytes) ==> PairsFit(w, owner, pairs[..i + 1], maxBytes)
  {
    NextPair(pairs, i);
    PairBytesGrow(pairs, i + 1);
    forall k | 0 <= k < i ensures PairFits(pairs[k], maxBytes) { assert pairs[..i][k] == pairs[k]; }
  }

  // ----- CommitZIP -----

  ghost predicate OwnPreview(w: World, owner: Id, rev: Id, p: Id) {
    p in w.rows.previews && w.rows.previews[p].owner == owner && w.rows.previews[p].revision == rev
  }

  /** SELECT COALESCE(MAX(position), -1). */
  method MaxPosition(tests: map<Id, Rows.TestCase>) returns (base: int)
    requires forall i :: i in tests ==> tests[i].position >= 0
    ensures Rows.IsMaxPosition(tests, base)
    ensures if tests == map[] then base == -1 else exists i :: i in tests && tests[i].position == base
    ensures forall i :: i in tests ==> tests[i].position <= base
  {
    base := -1;
    var left := tests.Keys;
    while left != {}
      invariant left <= tests.Keys && base >= -1
      invariant forall i :: i in tests && i !in left ==> tests[i].position <= base
      invariant if left == tests.Keys then base == -1 else exists i :: i in tests && i !in left && tests[i].position == base
      decreases left
    {
      var i :| i in left;
      if left == tests.Keys || tests[i].position > base { base := tests[i].position; }
      left := left - {i};
    }
  }

  /** A new import of this preview is allowed now. */
  ghost predicate Importable(w: World, owner: Id, rev: Id, p: Id) {
    && Files.IsDraft(w, rev) && OwnPreview(w, owner, rev, p)
    && w.rows.previews[p].committed.None? && w.disk.clock < w.rows.previews[p].expires
    && forall i :: i in w.rows.revs[rev].tests ==> w.rows.revs[rev].tests[i].position <= 1073741824
  }

  /** The import of a preview: all of its archive, in name order after the tests there were, exactly once. */
  ghost predicate Imported(w0: World, w: World, op: Rows.Op, rev: Id, p: Id) {
    && op.Imported? && op.rev == rev && op.preview == p
    && ImportRuns.TablesAfterImport(w0.rows, op, w.rows)
    && forall order :: ImportRuns.InOrder(w0.rows.revs[rev].tests, order) ==> ImportRuns.TestsAfterImport(w0, op, w, order)
  }

  lemma {:induction false} ArchiveThere(w: Sound, p: Id)
    requires p in w.rows.previews
    ensures w.rows.previews[p].artifact in w.disk.arts
    ensures WorldRuns.OnFile(w, w.disk.arts[w.rows.previews[p].artifact])
    ensures Importer.Readable(w.disk.arts[w.rows.previews[p].artifact].digest, w.limits, w.decode)
  {
    assert Imports.ArchiveReadable(w, p);
    WorldRuns.RowOnFile(w, w.rows.previews[p].artifact);
  }

  /** Reading the archive cannot fail: the row and the file are there, with the bytes that were accepted before. */
  method ReadArchive(sys: Server, p: Id) returns (pairs: seq<Importer.TestPair>)
    requires p in sys.w.rows.previews
    ensures ReadsArchive(sys.w, p, pairs)
  {
    hide Imports.Good;
    ArchiveThere(sys.w, p);
    var artifact := sys.w.rows.previews[p].artifact;
    if artifact !in sys.w.disk.arts { assert false; }
    var name := Disk.Stored(sys.w.disk.arts[artifact].key);
    if name !in sys.w.disk.files { assert false; }
    var r, drawn := Importer.ReadTestZIP(sys.w.disk.files[name].bytes, sys.w.limits, sys.w.decode);
    if r.Err? { assert false; }
    pairs := r.value;
  }

  lemma ImportStarts(w0: World, w: World, s: Rows.State, t: Id, owner: Id, rev: Id, p: Id, base: int, pairs: seq<Importer.TestPair>)
    requires Idle(w0) && w == Files.Locked(w0, t, rev) && Importable(w0, owner, rev, p)
    requires s == w.rows && Rows.IsMaxPosition(w0.rows.revs[rev].tests, base)
    ensures Rows.StartImport(s, t, p, owner, w0.disk.clock, base, pairs).Some?
    ensures TakenSince(w, t, w0.disk.clock) && w.rows.revs == w0.rows.revs
    ensures Rows.StartImport(s, t, p, owner, w0.disk.clock, base, pairs).value.txs[t].op == Rows.Importing(rev, p, base, pairs, [])
  {
  }

  method Start(sys: Server, t: Id, owner: Id, rev: Id, p: Id, base: int, pairs: seq<Importer.TestPair>, ghost w0: World)
    requires Idle(w0) && sys.w == Files.Locked(w0, t, rev) && Working(sys.w, t) && Files.Ahead(w0, sys.w, t)
    requires Importable(w0, owner, rev, p) && Rows.IsMaxPosition(w0.rows.revs[rev].tests, base) && ReadsArchive(sys.w, p, pairs)
    modifies sys
    ensures ImportingAt(w0, sys.w, t, rev, p, base, pairs, 0) && sys.w.disk == old(sys.w).disk
  {
    hide Imports.Good;
    ghost var w := sys.w;
    ImportStarts(w0, sys.w, sys.w.rows, t, owner, rev, p, base, pairs);
    var ok := sys.Exec(t, Rows.SStartImport(p, owner, sys.w.disk.clock, base, pairs));
    if !ok { assert false; }
    Files.AheadRan(w0, w, sys.w, t);
  }

  lemma NothingExpires(w: Sound, t: Id)
    requires Imports.IsImport(w, t)
    ensures w.rows.txs[t].expired == {} && w.rows.txs[t].op.preview in w.rows.previews
  {
    assert RowsSafety.TxOk(w.rows, w.rows.txs[t]) && RowsSafety.ImportOk(w.rows, w.rows.txs[t]);
    assert Imports.Sourced(w, t);
  }

  /** Setting the mark on the preview. */
  method Mark(sys: Server, t: Id, ghost rev: Id, ghost p: Id, ghost base: int, ghost pairs: seq<Importer.TestPair>, ghost w0: World)
    requires ImportingAt(w0, sys.w, t, rev, p, base, pairs, |pairs|)
    modifies sys
    ensures Working(sys.w, t) && Files.Ahead(w0, sys.w, t) && !sys.w.disk.txs[t].failed && sys.w.disk.txs[t].cutoff.None?
    ensures sys.w.rows.txs[t].op.Imported? && sys.w.rows.txs[t].op.rev == rev && sys.w.rows.txs[t].op.preview == p
  {
    hide Imports.Good;
    ghost var w := sys.w;
    LockedExists(sys.w, t);
    NothingExpires(sys.w, t);
    var ok := sys.Exec(t, Rows.SFinishImport(sys.w.disk.clock));
    if !ok { assert false; }
    Files.AheadRan(w0, w, sys.w, t);
  }

  lemma ImportDone(w0: World, w: Sound, t: Id, w': World, rev: Id, p: Id)
    requires SameTables(w0, w) && Imports.IsImport(w, t) && Imports.Commits(w, t, w')
    requires w.rows.txs[t].op.Imported? && w.rows.txs[t].op.rev == rev && w.rows.txs[t].op.preview == p
    ensures Imported(w0, w', w.rows.txs[t].op, rev, p)
  {
    hide Imports.Good;
    var op := w.rows.txs[t].op;
    ImportRuns.ImportReady(w, t);
    Files.StoreIds(w);
    TablesDone(w0, w, t, w');
    forall order | ImportRuns.InOrder(w0.rows.revs[rev].tests, order) ensures ImportRuns.TestsAfterImport(w0, op, w', order) {
      ImportRuns.ImportIsExact(w, t, w', order);
      SameSource(w0, w, op, w', order);
    }
  }

  lemma TablesDone(w0: World, w: World, t: Id, w': World)
    requires SameTables(w0, w) && t in w.rows.txs && RowsSafety.TxOk(w.rows, w.rows.txs[t]) && Imports.Commits(w, t, w')
    requires w.rows.txs[t].op.Imported? && w.rows.txs[t].op.preview in w.rows.previews
    ensures ImportRuns.TablesAfterImport(w0.rows, w.rows.txs[t].op, w'.rows)
  {
    ImportRuns.ImportedTables(w.rows, t);
  }

  lemma SameSource(w0: World, w: World, op: Rows.Op, w': World, order: seq<Id>)
    requires SameTables(w0, w) && op.Imported? && ImportRuns.TablesAfterImport(w.rows, op, w'.rows)
    requires ImportRuns.TablesAfterImport(w0.rows, op, w'.rows) && ImportRuns.TestsAfterImport(w, op, w', order)
    ensures ImportRuns.TestsAfterImport(w0, op, w', order)
  {
  }

  method Complete(sys: Server, t: Id, ghost rev: Id, ghost p: Id, ghost w0: World) returns (ghost op: Rows.Op)
    requires Working(sys.w, t) && Files.Ahead(w0, sys.w, t) && !sys.w.disk.txs[t].failed && sys.w.disk.txs[t].cutoff.None?
    requires sys.w.rows.txs[t].op.Imported? && sys.w.rows.txs[t].op.rev == rev && sys.w.rows.txs[t].op.preview == p
    modifies sys
    ensures Idle(sys.w) && Imported(w0, sys.w, op, rev, p)
  {
    hide Imports.Good;
    ghost var w := sys.w;
    op := sys.w.rows.txs[t].op;
    sys.End(t);
    ImportDone(w0, w, t, sys.w, rev, p);
  }

  /** A transaction that has only locked a draft commits nothing. */
  method CommitNothing(sys: Server, t: Id, ghost w0: World, ghost rev: Id)
    requires Idle(w0) && sys.w == Files.Locked(w0, t, rev) && Working(sys.w, t)
    modifies sys
    ensures Idle(sys.w) && Unchanged(w0, sys.w)
  {
    hide Imports.Good;
    sys.End(t);
  }

  lemma SameArchive(w0: World, t: Id, rev: Id, p: Id, pairs: seq<Importer.TestPair>)
    ensures ReadsArchive(Files.Locked(w0, t, rev), p, pairs) <==> ReadsArchive(w0, p, pairs)
  {
  }

  /** There is only one way to pair an archive. */
  lemma {:induction false} OnlyPairs(w: World, p: Id, pairs: seq<Importer.TestPair>, others: seq<Importer.TestPair>)
    requires ReadsArchive(w, p, pairs) && ReadsArchive(w, p, others)
    ensures pairs == others
  {
    var raw := w.disk.files[Disk.Stored(w.disk.arts[w.rows.previews[p].artifact].key)].bytes;
    var items := Importer.Items(w.decode(raw).value);
    Importer.PairingUnique(items, items, pairs, others);
  }

  /** When nothing goes wrong underneath, this is exactly when a commit succeeds: a repeated one always does. */
  ghost predicate CanCommit(w: World, owner: Id, rev: Id, p: Id, maxBytes: int) {
    && Files.IsDraft(w, rev) && OwnPreview(w, owner, rev, p)
    && (w.rows.previews[p].committed.None? ==>
          Importable(w, owner, rev, p) && forall pairs :: ReadsArchive(w, p, pairs) ==> PairsFit(w, owner, pairs, maxBytes))
  }

  /** The first check that refuses a commit; anything later is a failure of the store or a file that does not fit. */
  ghost function Refusal(w: World, owner: Id, rev: Id, p: Id): Option<Error> {
    if rev !in w.rows.revs then Some(NotFound)
    else if !w.rows.revs[rev].state.Draft? then Some(Conflict)
    else if !OwnPreview(w, owner, rev, p) then Some(NotFound)
    else if w.rows.previews[p].committed.Some? then None
    else if w.disk.clock >= w.rows.previews[p].expires then Some(Conflict)
    else if !Importable(w, owner, rev, p) then Some(Invalid)
    else None
  }

  /**
    Imports the archive of a preview once.  Whatever fails, nothing has changed; it never fails for an archive
    that is gone or cannot be read; and a repeated commit succeeds without doing anything.
  */
  method CommitZIP(sys: Server, t: Id, owner: Id, rev: Id, p: Id, maxBytes: int, faults: bool)
    returns (r: Result<(), Error>, ghost op: Rows.Op)
    requires Idle(sys.w)
    modifies sys
    ensures Idle(sys.w)
    ensures r.Err? ==> Unchanged(old(sys.w), sys.w)
    ensures var refusal := Refusal(old(sys.w), owner, rev, p);
            if refusal.Some? then r == Err(refusal.value) else r.Err? ==> r.error.Failed?
    ensures r.Ok? ==> OwnPreview(old(sys.w), owner, rev, p)
    ensures r.Ok? && old(sys.w).rows.previews[p].committed.Some? ==> Unchanged(old(sys.w), sys.w)
    ensures r.Ok? && old(sys.w).rows.previews[p].committed.None? ==> Imported(old(sys.w), sys.w, op, rev, p)
    ensures !faults ==> (r.Ok? <==> CanCommit(old(sys.w), owner, rev, p, maxBytes))
  {
    hide Imports.Good;
    op := Rows.Fresh;
    ghost var w0 := sys.w;
    if rev !in sys.w.rows.revs { return Err(NotFound), op; }
    var draft := Files.OpenDraft(sys, t, rev, faults);
    if !draft { return Err(Conflict), op; }
    var error := CheckPreview(sys, t, owner, rev, p, w0);
    if error.Some? {
      Files.Rollback(sys, t, w0, faults);
      return Err(error.value), op;
    }
    if sys.w.rows.previews[p].committed.Some? {
      CommitNothing(sys, t, w0, rev);
      return Ok(()), op;
    }
    var pairs := ReadArchive(sys, p);
    SameArchive(w0, t, rev, p, pairs);
    forall others | ReadsArchive(w0, p, others) ensures others == pairs { OnlyPairs(w0, p, pairs, others); }
    r, op := RunImport(sys, t, owner, rev, p, pairs, maxBytes, w0, faults);
  }

  /** The preview must belong to the caller and the revision; a new import must be before its expiry. */
  method CheckPreview(sys: Server, t: Id, owner: Id, rev: Id, p: Id, ghost w0: World) returns (error: Option<Error>)
    requires sys.w == Files.Locked(w0, t, rev)
    ensures error.None? <==>
      OwnPreview(w0, owner, rev, p) && (w0.rows.previews[p].committed.Some? || w0.disk.clock < w0.rows.previews[p].expires)
    ensures error.Some? ==> error.value == if OwnPreview(w0, owner, rev, p) then Conflict else NotFound
  {
    var previews := sys.w.rows.previews;
    if p !in previews || previews[p].owner != owner || previews[p].revision != rev { return Some(NotFound); }
    if previews[p].committed.None? && !(sys.w.disk.clock < previews[p].expires) { return Some(Conflict); }
    error := None;
  }

  method RunImport(
    sys: Server, t: Id, owner: Id, rev: Id, p: Id, pairs: seq<Importer.TestPair>, maxBytes: int, ghost w0: World, faults: bool)
    returns (r: Result<(), Error>, ghost op: Rows.Op)
    requires Idle(w0) && sys.w == Files.Locked(w0, t, rev) && Working(sys.w, t) && Files.Ahead(w0, sys.w, t)
    requires Files.IsDraft(w0, rev) && OwnPreview(w0, owner, rev, p) && w0.rows.previews[p].committed.None?
    requires w0.disk.clock < w0.rows.previews[p].expires && ReadsArchive(sys.w, p, pairs)
    modifies sys
    ensures Idle(sys.w)
    ensures r.Err? ==> Unchanged(w0, sys.w)
    ensures r.Ok? ==> Imported(w0, sys.w, op, rev, p)
    ensures if Importable(w0, owner, rev, p) then r.Err? ==> r.error.Failed? else r == Err(Invalid)
    ensures !faults ==> (r.Ok? <==> Importable(w0, owner, rev, p) && PairsFit(w0, owner, pairs, maxBytes))
  {
    hide Imports.Good;
    op := Rows.Fresh;
    PositionsKnown(sys.w, rev);
    var base := MaxPosition(sys.w.rows.revs[rev].tests);
    OnlyMax(sys.w.rows.revs[rev].tests, base);
    if base > Rows.MAX_POSITION {
      Files.Rollback(sys, t, w0, faults);
      return Err(Invalid), op;
    }
    Start(sys, t, owner, rev, p, base, pairs, w0);
    var all := ImportAll(sys, t, owner, rev, p, base, pairs, maxBytes, w0, faults);
    if all.Err? {
      Files.Rollback(sys, t, w0, faults);
      return Err(Failed(all.error)), op;
    }
    Mark(sys, t, rev, p, base, pairs, w0);
    var fault: bool := *;
    if faults && fault {
      Files.Rollback(sys, t, w0, faults);
      return Err(Failed(Store.Storage)), op;
    }
    op := Complete(sys, t, rev, p, w0);
    r := Ok(());
  }

  lemma OnlyMax(tests: map<Id, Rows.TestCase>, base: int)
    requires Rows.IsMaxPosition(tests, base)
    ensures forall b :: Rows.IsMaxPosition(tests, b) <==> b == base
  {
  }

  lemma PositionsKnown(w: Sound, rev: Id)
    requires rev in w.rows.revs
    ensures forall i :: i in w.rows.revs[rev].tests ==> w.rows.revs[rev].tests[i].position >= 0
  {
  }

  // ----- PreviewZIP -----

  /** One new preview, valid for an hour, with a new artifact that holds the archive; nothing else has changed. */
  ghost predicate Previewed(w: World, w': World, p: Id, owner: Id, rev: Id, raw: Bytes) {
    && p !in w.rows.previews && p in w'.rows.previews
    && w'.rows.previews == w.rows.previews[p := w'.rows.previews[p]]
    && w'.rows.previews[p] == Rows.Preview(owner, rev, w'.rows.previews[p].artifact, w.disk.clock + 60 * 60, None)
    && Files.OnlyArtifact(w, w', w'.rows.previews[p].artifact, owner, raw)
    && w'.rows.revs == w.rows.revs && w'.rows.problems == w.rows.problems && w'.rows.assigns == w.rows.assigns
    && w'.disk.clock == w.disk.clock && w'.limits == w.limits && w'.decode == w.decode
  }

  lemma PreviewPut(s: Rows.State, t: Id, rev: Id, owner: Id, id: Id, expires: Time)
    requires s.txs == map[t := Rows.Tx(Rows.Editing(rev), map[], map[], map[], {})] && rev in s.revs
    ensures var r := Rows.AddPreview(s, t, owner, id, expires);
            && r.Some? && Rows.CanCommit(r.value, t) && t in r.value.txs
            && var s' := Rows.Commit(r.value, t);
               s'.previews == s.previews[s.next := Rows.Preview(owner, rev, id, expires, None)]
               && s'.revs == s.revs && s'.problems == s.problems && s'.assigns == s.assigns
  {
  }

  lemma PreviewAdded(w0: World, w: World, t: Id, rev: Id, id: Id, owner: Id, raw: Bytes, w': World)
    requires Files.OneSaved(w0, w, t, rev, id, owner, raw) && DiskSafety.Ids(w.disk) && rev in w0.rows.revs
    requires w0.rows.next !in w0.rows.previews && Disk.Enabled(w.disk, Disk.Commit(t))
    requires var s1 := Rows.AddPreview(w.rows, t, owner, id, w0.disk.clock + HOUR);
             s1.Some? && t in s1.value.txs && w'.rows == Rows.Commit(s1.value, t)
    requires w'.disk == Disk.Apply(w.disk, Disk.Commit(t)) && w'.limits == w0.limits && w'.decode == w0.decode
    ensures Previewed(w0, w', w0.rows.next, owner, rev, raw)
  {
    PreviewPut(w.rows, t, rev, owner, id, w0.disk.clock + HOUR);
    Files.OneCommitted(w0, w, t, rev, id, owner, raw, w');
  }

  lemma NextIsNew(w: Sound)
    ensures w.rows.next !in w.rows.previews
  {
  }

  method InsertPreview(sys: Server, t: Id, owner: Id, ghost rev: Id, id: Id, ghost raw: Bytes, ghost w0: Sound) returns (p: Id)
    requires Idle(w0) && Files.IsDraft(w0, rev) && Files.OneSaved(w0, sys.w, t, rev, id, owner, raw)
    requires Importer.Readable(raw, sys.w.limits, sys.w.decode)
    modifies sys
    ensures Idle(sys.w) && Previewed(w0, sys.w, p, owner, rev, raw)
  {
    hide Imports.Good;
    ghost var w := sys.w;
    p := sys.w.rows.next;
    PutPreview(sys, t, owner, rev, id, raw, w0);
    NextIsNew(w0);
    Files.StoreIds(w);
    sys.End(t);
    PreviewAdded(w0, w, t, rev, id, owner, raw, sys.w);
  }

  method PutPreview(sys: Server, t: Id, owner: Id, ghost rev: Id, id: Id, ghost raw: Bytes, ghost w0: World)
    requires Files.IsDraft(w0, rev) && Files.OneSaved(w0, sys.w, t, rev, id, owner, raw)
    requires Importer.Readable(raw, sys.w.limits, sys.w.decode)
    modifies sys
    ensures Working(sys.w, t) && sys.w.disk == old(sys.w).disk && Rows.CanCommit(sys.w.rows, t)
    ensures Rows.AddPreview(old(sys.w).rows, t, owner, id, w0.disk.clock + HOUR) == Some(sys.w.rows)
    ensures sys.w.limits == w0.limits && sys.w.decode == w0.decode
  {
    hide Imports.Good;
    Files.StoreIds(sys.w);
    var expires := sys.w.disk.clock + HOUR;
    assert expires == w0.disk.clock + HOUR;
    PreviewWarranted(sys.w, t, id, owner, raw, expires);
    PreviewPut(sys.w.rows, t, rev, owner, id, expires);
    ghost var added := Rows.AddPreview(sys.w.rows, t, owner, id, expires);
    assert Rows.Exec(sys.w.rows, t, Rows.SAddPreview(owner, id, expires)) == added;
    var ok := sys.Exec(t, Rows.SAddPreview(owner, id, expires));
    if !ok { assert false; }
    assert sys.w.rows == added.value;
  }

  lemma {:induction false} PreviewWarranted(w: World, t: Id, id: Id, owner: Id, raw: Bytes, expires: Time)
    requires DiskSafety.Ids(w.disk) && Files.HasSaved(w, t, id, owner, raw) && Importer.Readable(raw, w.limits, w.decode)
    ensures Warranted(w, t, Rows.SAddPreview(owner, id, expires))
  {
    assert DiskSafety.Saves(w.disk, t, id);
    WorldSafety.OwnSavedLinkable(w, t, id);
  }

  /** When nothing goes wrong underneath, this is exactly when an archive can be previewed. */
  ghost predicate CanPreview(w: World, owner: Id, rev: Id, source: Bytes, maxBytes: int) {
    Files.IsDraft(w, rev) && CanImport(w, source, maxBytes) && owner != 0 && Store.HasRoom(w, |source|)
  }

  /** The importer accepts the archive, and each of its files is within the limit for one artifact. */
  ghost predicate CanImport(w: World, source: Bytes, maxBytes: int) {
    && Importer.Readable(source, w.limits, w.decode)
    && forall pairs :: Reads(w, source, pairs) ==> AllFit(pairs, maxBytes)
  }

  predicate AllFit(pairs: seq<Importer.TestPair>, maxBytes: int) {
    forall k :: 0 <= k < |pairs| ==> PairFits(pairs[k], maxBytes)
  }

  method CheckSizes(pairs: seq<Importer.TestPair>, maxBytes: int) returns (ok: bool)
    ensures ok <==> AllFit(pairs, maxBytes)
  {
    for k := 0 to |pairs|
      invariant forall j :: 0 <= j < k ==> PairFits(pairs[j], maxBytes)
    {
      if |pairs[k].input| > maxBytes || |pairs[k].output| > maxBytes { return false; }
    }
    ok := true;
  }

  lemma {:induction false} OnlyReading(w: World, raw: Bytes, pairs: seq<Importer.TestPair>)
    requires Reads(w, raw, pairs)
    ensures pairs != [] && forall others :: Reads(w, raw, others) ==> others == pairs
  {
    var items := Importer.Items(w.decode(raw).value);
    assert |Importer.Flatten(pairs)| == |multiset(Importer.Flatten(pairs))| == |multiset(items)| == |items| > 0;
    forall others | Reads(w, raw, others) ensures others == pairs { Importer.PairingUnique(items, items, others, pairs); }
  }

  /** The tests of the archive, if it can be imported: those that a later commit will bring in. */
  method ReadSource(sys: Server, source: Bytes, maxBytes: int) returns (pairs: Option<seq<Importer.TestPair>>)
    ensures pairs.Some? ==> Reads(sys.w, source, pairs.value)
    ensures pairs.Some? <==> CanImport(sys.w, source, maxBytes)
  {
    hide Imports.Good;
    var limits := sys.w.limits;
    var raw := if limits.maxBytes >= 0 && |source| > limits.maxBytes then source[..limits.maxBytes + 1] else source;
    var r, drawn := Importer.ReadTestZIP(raw, limits, sys.w.decode);
    if r.Err? { return None; }
    OnlyReading(sys.w, raw, r.value);
    if |r.value| == 0 { return None; }
    var ok := CheckSizes(r.value, maxBytes);
    pairs := if ok then Some(r.value) else None;
  }

  /**
    Stores an archive for an hour.  The tests it reports are those that a commit will import: the archive of the
    new preview reads as exactly these pairs.
  */
  method PreviewZIP(sys: Server, t: Id, owner: Id, rev: Id, source: Bytes, maxBytes: int, faults: bool)
    returns (r: Result<(Id, seq<Importer.TestPair>), Error>)
    requires Idle(sys.w)
    modifies sys
    ensures Idle(sys.w)
    ensures r.Err? ==> Unchanged(old(sys.w), sys.w)
    ensures r.Err? ==> (r.error == NotFound <==> rev !in old(sys.w).rows.revs)
    ensures r.Err? ==> (r.error == Conflict <==> rev in old(sys.w).rows.revs && !Files.IsDraft(old(sys.w), rev))
    ensures r.Err? && Files.IsDraft(old(sys.w), rev) ==> (r.error == Invalid <==> !CanImport(old(sys.w), source, maxBytes))
    ensures r.Ok? ==> Previewed(old(sys.w), sys.w, r.value.0, owner, rev, source) && Reads(sys.w, source, r.value.1)
    ensures !faults ==> (r.Ok? <==> CanPreview(old(sys.w), owner, rev, source, maxBytes))
  {
    hide Imports.Good;
    ghost var w0 := sys.w;
    if rev !in sys.w.rows.revs { return Err(NotFound); }
    if !sys.w.rows.revs[rev].state.Draft? { return Err(Conflict); }
    var pairs := ReadSource(sys, source, maxBytes);
    if pairs.None? { return Err(Invalid); }
    var limit := sys.w.limits.maxBytes;
    var draft := Files.OpenDraft(sys, t, rev, faults);
    if !draft { return Err(Conflict); }
    Validation.NotBlank("tests.zip", 0);
    var item := Files.SaveWithin(sys, t, owner, "tests.zip", source, limit, w0, faults);
    var fault: bool := *;
    if item.Err? || (faults && fault) {
      Files.Rollback(sys, t, w0, faults);
      return Err(Failed(if item.Err? then item.error else Store.Storage));
    }
    var p := InsertPreview(sys, t, owner, rev, item.value, source, w0);
    r := Ok((p, pairs.value));
  }
}
