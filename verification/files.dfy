/** Why an operation on the content of a draft fails. */
module FileErrors {
  import Store

  datatype Error = NotFound | Invalid | Conflict | Failed(cause: Store.Error)
}

/**
  File transactions (`fileTransaction` and `SaveTest` in internal/content/files.go): files are written inside a
  database transaction, and removed again when it does not commit.
*/
module Files {
  import opened Base
  import opened World
  import opened System
  import Disk
  import DiskBounds
  import DiskSafety
  import Imports
  import Rows
  import RowsSafety
  import Store
  import WorldSafety

  /** Since `w0`, the transaction has only added files, and a saved row knows each of them. */
  ghost predicate Ahead(w0: World, w: World, t: Id) {
    && t in w.disk.txs && SameTables(w0, w) && w.disk.staging == w0.disk.staging && w0.disk.stray <= w.disk.stray
    && w.disk.clock == w0.disk.clock
    && (forall name :: name in w0.disk.files ==> name in w.disk.files && w.disk.files[name] == w0.disk.files[name])
    && (forall k :: k in Disk.KeysOf(w.disk.txs[t].saved) ==>
          Disk.Stored(k) !in w0.disk.files && Disk.Stored(k) in w.disk.files && k !in w.disk.stray)
    && (w.disk.stray == w0.disk.stray ==>
          forall name :: name in w.disk.files && name !in w0.disk.files ==> OfSaved(w, t, name))
  }

  ghost predicate OfSaved(w: World, t: Id, name: Disk.Name)
    requires t in w.disk.txs
  {
    name.Stored? && name.key in Disk.KeysOf(w.disk.txs[t].saved)
  }

  lemma AheadSaved(w0: World, w: World, w': World, t: Id, owner: Id, key: nat, bytes: Bytes)
    requires Ahead(w0, w, t) && Store.SavedOne(w, w', t, owner, key, bytes) && DiskSafety.Ids(w.disk)
    ensures Ahead(w0, w', t)
  {
    hide Disk.KeysOf, DiskSafety.Ids;
    var x := w.disk.txs[t];
    NextIsNew(w.disk, t);
    KeysGrow(x.saved, w.disk.next, w'.disk.txs[t].saved[w.disk.next]);
  }

  lemma {:induction false} NextIsNew(s: Disk.State, t: Id)
    requires DiskSafety.Ids(s) && t in s.txs
    ensures s.next !in s.txs[t].saved
  {
    assert DiskSafety.Saves(s, t, s.next) ==> s.next < s.next;
  }

  lemma {:induction false} KeysGrow(saved: map<Id, Disk.Artifact>, id: Id, row: Disk.Artifact)
    requires id !in saved
    ensures Disk.KeysOf(saved[id := row]) == Disk.KeysOf(saved) + {row.key}
  {
    assert saved[id := row][id].key == row.key;
    forall k | k in Disk.KeysOf(saved) ensures k in Disk.KeysOf(saved[id := row]) {
      var i :| i in saved && saved[i].key == k;
      assert saved[id := row][i].key == k;
    }
  }

  lemma AheadFailed(w0: World, w: World, w': World, t: Id)
    requires Ahead(w0, w, t) && Store.SaveFailed(w, w', t)
    ensures Ahead(w0, w', t)
  {
  }

  lemma AheadRan(w0: World, w: World, w': World, t: Id)
    requires Ahead(w0, w, t) && WorldSafety.RowsOnly(w, t, w')
    ensures Ahead(w0, w', t)
  {
  }

  /** What is left to do: remove the files named in the job. */
  ghost predicate Behind(w0: World, w: World, t: Id) {
    && t in w.disk.jobs && w.disk.jobs[t].Undo? && SameTables(w0, w) && w.disk.staging == w0.disk.staging
    && w0.disk.stray <= w.disk.stray
    && (forall name :: name in w0.disk.files ==> name in w.disk.files && w.disk.files[name] == w0.disk.files[name])
    && (forall k :: k in w.disk.jobs[t].keys ==> Disk.Stored(k) !in w0.disk.files && k !in w.disk.stray)
    && (w.disk.stray == w0.disk.stray ==>
          forall name :: name in w.disk.files && name !in w0.disk.files ==> name.Stored? && name.key in w.disk.jobs[t].keys)
  }

  /** The compensation: whatever the transaction saved is removed again, as far as removals succeed. */
  method Rollback(sys: Server, t: Id, ghost w0: World, faults: bool)
    requires Working(sys.w, t) && Ahead(w0, sys.w, t)
    modifies sys
    ensures Idle(sys.w) && Unchanged(w0, sys.w)
    ensures !faults && old(sys.w).disk.stray == w0.disk.stray ==> sys.w.disk.stray == w0.disk.stray
  {
    hide Imports.Good, Disk.KeysOf, Ahead;
    GiveUp(sys, t, w0);
    ghost var stray := sys.w.disk.stray;
    while sys.w.disk.jobs[t].keys != {}
      invariant Cleaning(sys.w, t) && Behind(w0, sys.w, t)
      invariant !faults ==> sys.w.disk.stray == stray
      decreases if t in sys.w.disk.jobs && sys.w.disk.jobs[t].Undo? then sys.w.disk.jobs[t].keys else {}
    {
      var key :| key in sys.w.disk.jobs[t].keys;
      var fault: bool := *;
      RemoveOne(sys, t, key, w0, !(faults && fault));
    }
    sys.OnStore(Disk.End(t));
  }

  method GiveUp(sys: Server, t: Id, ghost w0: World)
    requires Working(sys.w, t) && Ahead(w0, sys.w, t)
    modifies sys
    ensures Cleaning(sys.w, t) && Behind(w0, sys.w, t) && sys.w.disk.stray == old(sys.w).disk.stray
    ensures sys.w.disk.files == old(sys.w).disk.files && sys.w.disk.jobs[t].keys == Disk.KeysOf(old(sys.w).disk.txs[t].saved)
  {
    hide Imports.Good;
    sys.Do(Abort(t));
  }

  /** A transaction that saves no file is rolled back without more ado. */
  method Cancel(sys: Server, t: Id, ghost w0: World)
    requires Working(sys.w, t) && Ahead(w0, sys.w, t) && sys.w.disk.txs[t].saved == map[]
    modifies sys
    ensures Idle(sys.w) && Unchanged(w0, sys.w)
    ensures sys.w.disk.files == old(sys.w).disk.files && sys.w.disk.staging == old(sys.w).disk.staging
  {
    hide Imports.Good;
    GiveUp(sys, t, w0);
    sys.OnStore(Disk.End(t));
  }

  method RemoveOne(sys: Server, t: Id, key: nat, ghost w0: World, removed: bool)
    requires Cleaning(sys.w, t) && Behind(w0, sys.w, t) && key in sys.w.disk.jobs[t].keys
    modifies sys
    ensures Cleaning(sys.w, t) && Behind(w0, sys.w, t)
    ensures sys.w.disk.jobs[t].keys == old(sys.w).disk.jobs[t].keys - {key}
    ensures removed ==> sys.w.disk.stray == old(sys.w).disk.stray
  {
    hide Imports.Good;
    sys.OnStore(Disk.Remove(t, key, removed));
  }

  // ----- inside a file transaction -----

  /** The transaction has just locked a draft. */
  function Locked(w: World, t: Id, rev: Id): World {
    w.(disk := w.disk.(txs := map[t := Disk.Tx(w.disk.clock, map[], {}, None, false)]),
       rows := w.rows.(txs := map[t := Rows.Tx(Rows.Editing(rev), map[], map[], map[], {})]))
  }

  ghost predicate IsDraft(w: World, rev: Id) {
    rev in w.rows.revs && w.rows.revs[rev].state.Draft?
  }

  lemma AheadLocked(w: World, t: Id, rev: Id)
    requires Idle(w)
    ensures Working(Locked(w, t, rev), t) && Ahead(w, Locked(w, t, rev), t)
  {
  }

  method OpenDraft(sys: Server, t: Id, rev: Id, faults: bool) returns (ok: bool)
    requires Idle(sys.w)
    modifies sys
    ensures ok <==> IsDraft(old(sys.w), rev)
    ensures ok ==> sys.w == Locked(old(sys.w), t, rev) && Working(sys.w, t) && Ahead(old(sys.w), sys.w, t)
    ensures !ok ==> Idle(sys.w) && Unchanged(old(sys.w), sys.w)
  {
    hide Imports.Good;
    ghost var w0 := sys.w;
    sys.Open(t, None);
    ok := sys.Exec(t, Rows.SLockDraft(rev));
    AheadLocked(w0, t, rev);
    if !ok {
      assert Ahead(w0, sys.w, t);
      Rollback(sys, t, w0, faults);
    }
  }

  /** A pending row with the content it was asked to have. */
  ghost predicate HasSaved(w: World, t: Id, id: Id, owner: Id, bytes: Bytes) {
    && t in w.disk.txs && id in w.disk.txs[t].saved
    && var row := w.disk.txs[t].saved[id]; row.owner == owner && row.digest == bytes && row.size == |bytes|
  }

  /** Only the pending artifacts of the transaction have changed, and only by this one. */
  ghost predicate Added(w: World, w': World, t: Id, id: Id) {
    && t in w.disk.txs && t in w'.disk.txs && w'.rows == w.rows
    && w'.disk.txs[t] == w.disk.txs[t].(saved := w'.disk.txs[t].saved) && id !in w.disk.txs[t].saved
    && id in w'.disk.txs[t].saved && w'.disk.txs[t].saved == w.disk.txs[t].saved[id := w'.disk.txs[t].saved[id]]
  }

  lemma {:induction false} SavedHas(w: World, w': World, t: Id, owner: Id, key: nat, bytes: Bytes)
    requires t in w.disk.txs && Store.SavedOne(w, w', t, owner, key, bytes) && DiskSafety.Ids(w.disk)
    ensures HasSaved(w', t, w.disk.next, owner, bytes) && Added(w, w', t, w.disk.next)
    ensures DiskBounds.Total(w'.disk.files) == DiskBounds.Total(w.disk.files) + |bytes|
    ensures w'.disk.stray == w.disk.stray && w'.disk.quota == w.disk.quota
  {
    if w.disk.next in w.disk.txs[t].saved { assert DiskSafety.Saves(w.disk, t, w.disk.next); }
    DiskBounds.TotalRemove(w'.disk.files, Disk.Stored(key));
    assert w'.disk.files - {Disk.Stored(key)} == w.disk.files;
  }

  lemma {:induction false} SavedWithin(w0: World, w: World, w': World, t: Id, owner: Id, bytes: Bytes)
    requires Ahead(w0, w, t) && DiskSafety.Ids(w.disk) && exists key :: Store.SavedOne(w, w', t, owner, key, bytes)
    ensures Ahead(w0, w', t) && HasSaved(w', t, w.disk.next, owner, bytes) && Added(w, w', t, w.disk.next)
    ensures DiskBounds.Total(w'.disk.files) == DiskBounds.Total(w.disk.files) + |bytes|
    ensures w'.disk.stray == w.disk.stray && w'.disk.quota == w.disk.quota
  {
    var key :| Store.SavedOne(w, w', t, owner, key, bytes);
    AheadSaved(w0, w, w', t, owner, key, bytes);
    SavedHas(w, w', t, owner, key, bytes);
  }

  /** The `save` that a file transaction hands to its function. */
  method SaveWithin(
    sys: Server, t: Id, owner: Id, filename: string, bytes: Bytes, maxBytes: int, ghost w0: World, faults: bool)
    returns (r: Result<Id, Store.Error>)
    requires Working(sys.w, t) && !sys.w.disk.txs[t].failed && SavesFiles(sys.w.rows.txs[t].op) && Ahead(w0, sys.w, t)
    modifies sys
    ensures Working(sys.w, t) && Ahead(w0, sys.w, t)
    ensures r.Ok? ==> HasSaved(sys.w, t, r.value, owner, bytes) && Added(old(sys.w), sys.w, t, r.value)
    ensures r.Ok? ==> DiskBounds.Total(sys.w.disk.files) == DiskBounds.Total(old(sys.w).disk.files) + |bytes|
    ensures r.Ok? || !faults ==> sys.w.disk.stray == old(sys.w).disk.stray
    ensures !faults ==> (r.Ok? <==>
      Store.Acceptable(owner, filename, maxBytes) && |bytes| <= maxBytes && Store.HasRoom(old(sys.w), |bytes|))
  {
    hide Imports.Good;
    ghost var w := sys.w;
    StoreIds(sys.w);
    r := Store.Save(sys, t, owner, filename, bytes, maxBytes, faults);
    if r.Ok? {
      SavedWithin(w0, w, sys.w, t, owner, bytes);
    } else if r.error != Store.Rejected {
      AheadFailed(w0, w, sys.w, t);
    }
  }

  lemma StoreIds(w: Sound)
    ensures DiskSafety.Ids(w.disk) && RowsSafety.Inv(w.rows) && WorldSafety.SameTxs(w)
  {
  }

  // ----- what a transaction with one file leaves -----

  ghost predicate NewArtifact(w: World, w': World, id: Id, owner: Id, bytes: Bytes) {
    && id !in w.disk.arts && id in w'.disk.arts
    && w'.disk.arts[id].owner == owner && w'.disk.arts[id].digest == bytes && w'.disk.arts[id].size == |bytes|
  }

  /** One artifact is new, and all the others are as they were. */
  ghost predicate OnlyArtifact(w: World, w': World, id: Id, owner: Id, bytes: Bytes) {
    NewArtifact(w, w', id, owner, bytes) && w'.disk.arts == w.disk.arts[id := w'.disk.arts[id]]
  }

  /** One file is saved and the draft is still locked. */
  ghost predicate OneSaved(w0: World, w: World, t: Id, rev: Id, id: Id, owner: Id, bytes: Bytes) {
    && Working(w, t) && Ahead(w0, w, t) && w.rows == Locked(w0, t, rev).rows
    && HasSaved(w, t, id, owner, bytes) && w.disk.txs[t].saved.Keys == {id}
    && w.disk.txs[t] == Disk.Tx(w0.disk.clock, w.disk.txs[t].saved, {}, None, false)
  }

  lemma OneCommitted(w0: World, w: World, t: Id, rev: Id, id: Id, owner: Id, bytes: Bytes, w': World)
    requires OneSaved(w0, w, t, rev, id, owner, bytes) && DiskSafety.Ids(w.disk)
    requires Disk.Enabled(w.disk, Disk.Commit(t)) && w'.disk == Disk.Apply(w.disk, Disk.Commit(t))
    ensures OnlyArtifact(w0, w', id, owner, bytes) && w'.disk.clock == w0.disk.clock && w'.disk.files == w.disk.files
  {
    assert DiskSafety.Saves(w.disk, t, id);
  }
}
