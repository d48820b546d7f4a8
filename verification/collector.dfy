/** Garbage collection (`Collect` in internal/content/files.go, `CollectTemporary` in internal/artifact/store.go). */
module Collector {
  import opened Base
  import opened World
  import opened System
  import Disk
  import DiskSafety
  import Files
  import Imports
  import Rows
  import WorldRuns

  // ----- the transaction: rows first -----

  /** Some revision, test or preview that is not being deleted refers to the artifact. */
  predicate InUse(s: Rows.State, gone: set<Id>, id: Id) {
    || (exists r :: r in s.revs && Uses(s.revs[r], id))
    || (exists p :: p in s.previews && p !in gone && s.previews[p].artifact == id)
  }

  /** The rows to delete: created before the cutoff and referred to by nothing that stays. */
  function Unused(w: World, cutoff: Time): set<Id> {
    set id | id in w.disk.arts && w.disk.arts[id].created < cutoff && !InUse(w.rows, Rows.Outdated(w.rows, cutoff), id)
  }

  /** The collector's transaction has deleted the outdated previews and the artifacts in `deleted`. */
  function Deleting(w: World, t: Id, cutoff: Time, deleted: set<Id>): World {
    w.(disk := w.disk.(txs := map[t := Disk.Tx(w.disk.clock, map[], deleted, Some(cutoff), false)]),
       rows := w.rows.(txs := map[t := Rows.Tx(Rows.Expiring, map[], map[], map[], Rows.Outdated(w.rows, cutoff))]))
  }

  /** The transaction has committed and the files of the deleted rows are still to be removed. */
  function Deleted(w: World, t: Id, cutoff: Time): World {
    var unused := Unused(w, cutoff);
    w.(disk := w.disk.(
         arts := w.disk.arts - unused, txs := map[],
         jobs := map[t := Disk.Unlink(cutoff, Disk.KeysOf(Disk.Among(w.disk.arts, unused)))]),
       rows := w.rows.(previews := w.rows.previews - Rows.Outdated(w.rows, cutoff), txs := map[]))
  }

  lemma Erasable(w: World, t: Id, cutoff: Time, deleted: set<Id>, id: Id)
    requires id in Unused(w, cutoff) && id !in deleted && w.rows.txs == map[]
    ensures Possible(Deleting(w, t, cutoff, deleted), Erase(t, id))
  {
  }

  method Expire(sys: Server, t: Id, cutoff: Time)
    requires Idle(sys.w) && cutoff <= sys.w.disk.clock - HOUR
    modifies sys
    ensures sys.w == Deleting(old(sys.w), t, cutoff, {}) && Working(sys.w, t)
  {
    hide Imports.Good;
    sys.Open(t, Some(cutoff));
    var ok := sys.Exec(t, Rows.SExpire(cutoff));
    if !ok { assert false; }
  }

  method DeleteUnused(sys: Server, t: Id, cutoff: Time, ghost w0: World)
    requires Idle(w0) && sys.w == Deleting(w0, t, cutoff, {})
    modifies sys
    ensures sys.w == Deleting(w0, t, cutoff, Unused(w0, cutoff))
  {
    hide Imports.Good;
    var left := Unused(sys.w.(rows := sys.w.rows.(txs := map[])), cutoff);
    assert left == Unused(w0, cutoff);
    assert Unused(w0, cutoff) - left == {};
    while left != {}
      invariant left <= Unused(w0, cutoff)
      invariant sys.w == Deleting(w0, t, cutoff, Unused(w0, cutoff) - left)
      decreases left
    {
      var id :| id in left;
      ghost var deleted := Unused(w0, cutoff) - left;
      left := left - {id};
      Erasable(w0, t, cutoff, deleted, id);
      sys.Do(Erase(t, id));
      assert Unused(w0, cutoff) - left == deleted + {id};
    }
    assert Unused(w0, cutoff) - {} == Unused(w0, cutoff);
  }

  method CommitDeletions(sys: Server, t: Id, cutoff: Time, ghost w0: World)
    requires Idle(w0) && sys.w == Deleting(w0, t, cutoff, Unused(w0, cutoff))
    modifies sys
    ensures sys.w == Deleted(w0, t, cutoff)
  {
    hide Imports.Good;
    sys.End(t);
  }

  // ----- the files -----

  function Names(keys: set<nat>): set<Disk.Name> {
    set k | k in keys :: Disk.Stored(k)
  }

  /** The directory entries, staging files included. */
  function Entries(w: World): nat {
    |w.disk.files| + |w.disk.staging|
  }

  lemma {:induction false} Fewer<K, V>(m: map<K, V>, gone: set<K>)
    requires gone <= m.Keys
    ensures |m - gone| == |m| - |gone|
  {
    assert (m - gone).Keys == m.Keys - gone;
    assert |m| == |m.Keys| && |m - gone| == |(m - gone).Keys|;
  }

  lemma {:induction false} NamesCount(keys: set<nat>)
    ensures |Names(keys)| == |keys|
    decreases keys
  {
    if k :| k in keys {
      NamesCount(keys - {k});
      assert Names(keys) == Names(keys - {k}) + {Disk.Stored(k)} && Disk.Stored(k) !in Names(keys - {k});
    }
  }

  lemma {:induction false} EntriesAt(w: World, t: Id, gone: set<nat>, job: Disk.Job)
    requires forall k :: k in gone ==> Disk.Stored(k) in w.disk.files
    ensures Entries(At(w, t, gone, job)) == Entries(w) - |gone|
  {
    NamesCount(gone);
    Fewer(w.disk.files, Names(gone));
  }

  /** Giving up: what is left in the queue stays on disk until a later collection. */
  method Quit(sys: Server, t: Id)
    requires Cleaning(sys.w, t)
    modifies sys
    ensures Idle(sys.w) && SameTables(old(sys.w), sys.w)
    ensures sys.w.disk.files == old(sys.w).disk.files && sys.w.disk.staging == old(sys.w).disk.staging
  {
    hide Imports.Good;
    sys.OnStore(Disk.End(t));
  }

  /** The collection as it removes files: those in `gone` are gone. */
  function At(w: World, t: Id, gone: set<nat>, job: Disk.Job): World {
    w.(disk := w.disk.(files := w.disk.files - Names(gone), jobs := map[t := job]))
  }

  method UnlinkOne(sys: Server, t: Id, cutoff: Time, ghost w0: World, ghost gone: set<nat>, left: set<nat>, key: nat)
    requires Cleaning(w0, t) && sys.w == At(w0, t, gone, Disk.Unlink(cutoff, left)) && key in left
    modifies sys
    ensures sys.w == At(w0, t, gone + {key}, Disk.Unlink(cutoff, left - {key}))
  {
    hide Imports.Good;
    sys.OnStore(Disk.Remove(t, key, true));
    assert Names(gone + {key}) == Names(gone) + {Disk.Stored(key)};
  }

  /** Removes the files in the queue until one cannot be removed; `left` are those that are still there. */
  method UnlinkAll(sys: Server, t: Id, cutoff: Time, keys: set<nat>, ghost w0: World, faults: bool)
    returns (removed: nat, left: set<nat>)
    requires Cleaning(w0, t) && sys.w == At(w0, t, {}, Disk.Unlink(cutoff, keys))
    modifies sys
    ensures left <= keys && removed + |left| == |keys| && sys.w == At(w0, t, keys - left, Disk.Unlink(cutoff, left))
    ensures !faults ==> left == {}
  {
    hide Imports.Good, Cleaning;
    removed, left := 0, keys;
    assert keys - left == {};
    var ok := true;
    while left != {} && ok
      invariant left <= keys && removed + |left| == |keys| && (!faults ==> ok)
      invariant sys.w == At(w0, t, keys - left, Disk.Unlink(cutoff, left))
      decreases left, ok
    {
      var key :| key in left;
      var fault: bool := *;
      if faults && fault {
        ok := false;
      } else {
        ghost var gone := keys - left;
        UnlinkOne(sys, t, cutoff, w0, gone, left, key);
        removed, left := removed + 1, left - {key};
        assert keys - left == gone + {key};
      }
    }
  }

  /** The files of the deleted rows, one after the other; the first that cannot be removed ends the collection. */
  method Unlink(sys: Server, t: Id, cutoff: Time, faults: bool) returns (removed: nat, ok: bool)
    requires Cleaning(sys.w, t) && sys.w.disk.jobs[t].Unlink? && sys.w.disk.jobs[t].cutoff == cutoff
    requires forall k :: k in sys.w.disk.jobs[t].keys ==> Disk.Stored(k) in sys.w.disk.files
    modifies sys
    ensures ok ==> sys.w == At(old(sys.w), t, old(sys.w).disk.jobs[t].keys, Disk.Sweep(cutoff))
    ensures !ok ==> Idle(sys.w) && SameTables(old(sys.w), sys.w)
    ensures removed == Entries(old(sys.w)) - Entries(sys.w)
    ensures !faults ==> ok
  {
    hide Imports.Good, Entries;
    ghost var w0 := sys.w;
    var keys := sys.w.disk.jobs[t].keys;
    var left;
    assert Names({}) == {} && sys.w.disk.jobs == map[t := Disk.Unlink(cutoff, keys)];
    removed, left := UnlinkAll(sys, t, cutoff, keys, w0, faults);
    UnlinkedSoFar(w0, t, keys, left, Disk.Unlink(cutoff, left));
    ok := left == {};
    if ok {
      Advance(sys, t, cutoff, w0, keys - left);
      UnlinkedSoFar(w0, t, keys, left, Disk.Sweep(cutoff));
      assert keys - left == keys;
    } else {
      var key :| key in left;
      FailUnlink(sys, t, key, w0);
    }
  }

  lemma {:induction false} UnlinkedSoFar(w: World, t: Id, keys: set<nat>, left: set<nat>, job: Disk.Job)
    requires left <= keys && (forall k :: k in keys ==> Disk.Stored(k) in w.disk.files)
    ensures Entries(At(w, t, keys - left, job)) == Entries(w) - (|keys| - |left|)
  {
    EntriesAt(w, t, keys - left, job);
    assert keys == left + (keys - left);
  }

  method Advance(sys: Server, t: Id, cutoff: Time, ghost w0: World, ghost gone: set<nat>)
    requires sys.w == At(w0, t, gone, Disk.Unlink(cutoff, {}))
    modifies sys
    ensures sys.w == At(w0, t, gone, Disk.Sweep(cutoff))
  {
    hide Imports.Good;
    sys.OnStore(Disk.Next(t));
  }

  method FailUnlink(sys: Server, t: Id, key: nat, ghost w0: World)
    requires Cleaning(sys.w, t) && sys.w.disk.jobs[t].Unlink? && key in sys.w.disk.jobs[t].keys && SameTables(w0, sys.w)
    modifies sys
    ensures Idle(sys.w) && SameTables(w0, sys.w) && Entries(sys.w) == Entries(old(sys.w))
  {
    hide Imports.Good;
    sys.OnStore(Disk.Remove(t, key, false));
    Quit(sys, t);
  }

  function OldStaging(d: Disk.State, cutoff: Time): set<nat> {
    set tmp | tmp in d.staging && d.staging[tmp].mtime < cutoff
  }

  /** The sweep of the staging files, holding the mutex: those in `gone` are gone. */
  function Holding(w: World, t: Id, gone: set<nat>): World {
    w.(disk := w.disk.(mu := Disk.Sweeping(t), staging := w.disk.staging - gone))
  }

  method DropOne(sys: Server, t: Id, tmp: nat, cutoff: Time, ghost w0: World, ghost gone: set<nat>)
    requires w0.disk.jobs == map[t := Disk.Sweep(cutoff)] && sys.w == Holding(w0, t, gone)
    requires tmp in OldStaging(w0.disk, cutoff) && tmp !in gone
    modifies sys
    ensures sys.w == Holding(w0, t, gone + {tmp})
  {
    hide Imports.Good;
    sys.OnStore(Disk.DropStaging(t, tmp));
  }

  /** Removes the old staging files until one cannot be removed; `gone` are those it has removed. */
  method DropAll(sys: Server, t: Id, cutoff: Time, ghost w0: World, faults: bool) returns (removed: nat, ok: bool, ghost gone: set<nat>)
    requires w0.disk.jobs == map[t := Disk.Sweep(cutoff)] && sys.w == Holding(w0, t, {})
    modifies sys
    ensures gone <= OldStaging(w0.disk, cutoff) && removed == |gone| && sys.w == Holding(w0, t, gone)
    ensures ok ==> gone == OldStaging(w0.disk, cutoff)
    ensures !faults ==> ok
  {
    hide Imports.Good;
    removed, ok, gone := 0, true, {};
    assert w0.disk.staging - {} == w0.disk.staging;
    var left := OldStaging(sys.w.disk, cutoff);
    while left != {} && ok
      invariant left !! gone && left + gone == OldStaging(w0.disk, cutoff) && removed == |gone|
      invariant sys.w == Holding(w0, t, gone)
      invariant !faults ==> ok
      decreases left, ok
    {
      var tmp :| tmp in left;
      var fault: bool := *;
      if faults && fault {
        ok := false;
      } else {
        DropOne(sys, t, tmp, cutoff, w0, gone);
        removed, left, gone := removed + 1, left - {tmp}, gone + {tmp};
      }
    }
  }

  /** Staging files left behind by an interrupted process, under the mutex that every Save holds. */
  method CollectTemporary(sys: Server, t: Id, cutoff: Time, faults: bool) returns (removed: nat, ok: bool)
    requires Cleaning(sys.w, t) && sys.w.disk.jobs == map[t := Disk.Sweep(cutoff)]
    modifies sys
    ensures ok ==> sys.w == Swept(old(sys.w), t, cutoff, OldStaging(old(sys.w).disk, cutoff))
    ensures Cleaning(sys.w, t) && SameTables(old(sys.w), sys.w)
    ensures removed == Entries(old(sys.w)) - Entries(sys.w)
    ensures !faults ==> ok
  {
    hide Imports.Good, Entries, SameTables;
    ghost var w0 := sys.w;
    ghost var gone;
    sys.OnStore(Disk.SweepLock(t));
    assert w0.disk.staging - {} == w0.disk.staging;
    removed, ok, gone := DropAll(sys, t, cutoff, w0, faults);
    Unlock(sys, t, cutoff, w0, gone);
    SweptTables(w0, t, cutoff, gone);
  }

  /** After the sweep the mutex is free, and the generated files of that moment are listed. */
  function Swept(w: World, t: Id, cutoff: Time, gone: set<nat>): World {
    w.(disk := w.disk.(
         staging := w.disk.staging - gone, jobs := map[t := Disk.Orphans(cutoff, Disk.Keys(w.disk), None)]))
  }

  lemma {:induction false} SweptTables(w: World, t: Id, cutoff: Time, gone: set<nat>)
    requires Cleaning(w, t) && gone <= w.disk.staging.Keys
    ensures Cleaning(Swept(w, t, cutoff, gone), t) && SameTables(w, Swept(w, t, cutoff, gone))
    ensures Entries(Swept(w, t, cutoff, gone)) == Entries(w) - |gone|
  {
    Fewer(w.disk.staging, gone);
  }

  method Unlock(sys: Server, t: Id, cutoff: Time, ghost w0: World, ghost gone: set<nat>)
    requires w0.disk.jobs == map[t := Disk.Sweep(cutoff)] && w0.disk.mu.Free? && sys.w == Holding(w0, t, gone)
    modifies sys
    ensures sys.w == Swept(w0, t, cutoff, gone)
  {
    hide Imports.Good;
    sys.OnStore(Disk.SweepUnlock(t));
  }

  /** A generated file that is older than the cutoff and has no row. */
  predicate IsOrphan(d: Disk.State, k: nat, cutoff: Time) {
    Disk.Stored(k) in d.files && d.files[Disk.Stored(k)].mtime < cutoff && !Disk.HasRow(d, k)
  }

  ghost function Orphans(d: Disk.State, cutoff: Time): set<nat> {
    set k | k in Disk.Keys(d) && IsOrphan(d, k, cutoff)
  }

  /** The orphan has been found and not been removed yet. */
  method FindOrphan(sys: Server, t: Id, key: nat, cutoff: Time, ghost w0: World, ghost gone: set<nat>, ghost left: set<nat>)
    requires Cleaning(w0, t) && sys.w == At(w0, t, gone, Disk.Orphans(cutoff, left, None))
    requires key in left && IsOrphan(sys.w.disk, key, cutoff)
    modifies sys
    ensures sys.w == At(w0, t, gone, Disk.Orphans(cutoff, left - {key}, Some(key)))
  {
    hide Imports.Good;
    sys.OnStore(Disk.Check(t, key));
  }

  method DropOrphan(sys: Server, t: Id, ghost key: nat, ghost cutoff: Time, ghost w0: World, ghost gone: set<nat>, ghost left: set<nat>)
    requires Cleaning(w0, t) && sys.w == At(w0, t, gone, Disk.Orphans(cutoff, left, Some(key)))
    modifies sys
    ensures sys.w == At(w0, t, gone + {key}, Disk.Orphans(cutoff, left, None))
  {
    hide Imports.Good;
    sys.OnStore(Disk.RemoveOrphan(t));
    assert Names(gone + {key}) == Names(gone) + {Disk.Stored(key)};
  }

  lemma {:induction false} AtTables(w: World, t: Id, gone: set<nat>, job: Disk.Job)
    requires Cleaning(w, t)
    ensures Cleaning(At(w, t, gone, job), t) && SameTables(w, At(w, t, gone, job))
  {
  }

  method SkipFile(sys: Server, t: Id, key: nat, cutoff: Time, ghost w0: World, ghost gone: set<nat>, ghost left: set<nat>)
    requires sys.w == At(w0, t, gone, Disk.Orphans(cutoff, left, None)) && key in left
    modifies sys
    ensures sys.w == At(w0, t, gone, Disk.Orphans(cutoff, left - {key}, None))
  {
    hide Imports.Good;
    sys.OnStore(Disk.Pass(t, key));
  }

  /** The files without a row, one after the other. */
  method SweepOrphans(sys: Server, t: Id, cutoff: Time, faults: bool) returns (removed: nat, ok: bool)
    requires Cleaning(sys.w, t) && sys.w.disk.jobs == map[t := Disk.Orphans(cutoff, Disk.Keys(sys.w.disk), None)]
    modifies sys
    ensures ok ==> sys.w == At(old(sys.w), t, Orphans(old(sys.w).disk, cutoff), Disk.Orphans(cutoff, {}, None))
    ensures Cleaning(sys.w, t) && SameTables(old(sys.w), sys.w)
    ensures removed == Entries(old(sys.w)) - Entries(sys.w)
    ensures !faults ==> ok
  {
    hide Imports.Good, Entries;
    ghost var w0 := sys.w;
    removed := 0;
    ghost var gone: set<nat> := {};
    var left := Disk.Keys(sys.w.disk);
    assert Names(gone) == {};
    while left != {}
      invariant left <= Disk.Keys(w0.disk) && gone !! left
      invariant sys.w == At(w0, t, gone, Disk.Orphans(cutoff, left, None)) && removed == |gone|
      invariant forall k :: k in gone <==> k in Orphans(w0.disk, cutoff) && k !in left
      decreases left
    {
      var key :| key in left;
      SameOrphan(w0, t, gone, Disk.Orphans(cutoff, left, None), key, cutoff);
      if IsOrphan(sys.w.disk, key, cutoff) {
        var fault: bool := *;
        FindOrphan(sys, t, key, cutoff, w0, gone, left);
        if faults && fault {
          EntriesAt(w0, t, gone, Disk.Orphans(cutoff, left - {key}, Some(key)));
          AtTables(w0, t, gone, Disk.Orphans(cutoff, left - {key}, Some(key)));
          return removed, false;
        }
        DropOrphan(sys, t, key, cutoff, w0, gone, left - {key});
        removed := removed + 1;
        gone := gone + {key};
      } else {
        SkipFile(sys, t, key, cutoff, w0, gone, left);
      }
      left := left - {key};
    }
    assert gone == Orphans(w0.disk, cutoff);
    EntriesAt(w0, t, gone, Disk.Orphans(cutoff, {}, None));
    AtTables(w0, t, gone, Disk.Orphans(cutoff, {}, None));
    ok := true;
  }

  lemma SameOrphan(w: World, t: Id, gone: set<nat>, job: Disk.Job, key: nat, cutoff: Time)
    requires key !in gone
    ensures IsOrphan(At(w, t, gone, job).disk, key, cutoff) <==> IsOrphan(w.disk, key, cutoff)
  {
  }

  // ----- the whole collection -----

  /** The artifact is the PDF of a revision, the input or the output of a test, sample or not, or the archive of a preview. */
  ghost predicate Needed(s: Rows.State, id: Id) {
    || (exists r :: r in s.revs && s.revs[r].pdf == Some(id))
    || (exists r, i :: r in s.revs && i in s.revs[r].tests && (s.revs[r].tests[i].input == id || s.revs[r].tests[i].output == id))
    || (exists p :: p in s.previews && s.previews[p].artifact == id)
  }

  /** The rows that stay: the revisions, the previews that are not outdated, and the artifacts that are young or in use. */
  ghost predicate RowsCollected(w: World, w': World, cutoff: Time) {
    && w'.rows.revs == w.rows.revs && w'.rows.problems == w.rows.problems && w'.rows.assigns == w.rows.assigns
    && (forall p :: p in w'.rows.previews <==> p in w.rows.previews && w.rows.previews[p].expires >= cutoff)
    && (forall p :: p in w'.rows.previews ==> w'.rows.previews[p] == w.rows.previews[p])
    && (forall id :: id in w'.disk.arts <==> id in w.disk.arts && (w.disk.arts[id].created >= cutoff || Needed(w'.rows, id)))
    && (forall id :: id in w'.disk.arts ==> w'.disk.arts[id] == w.disk.arts[id])
  }

  /** The files that stay: foreign ones, those with a row, and those without one that are young. */
  ghost predicate FilesCollected(w: World, w': World, cutoff: Time) {
    && (forall name :: name in w'.disk.files <==> name in w.disk.files && FileStays(w, w', name, cutoff))
    && (forall name :: name in w'.disk.files ==> w'.disk.files[name] == w.disk.files[name])
    && (forall tmp :: tmp in w'.disk.staging <==> tmp in w.disk.staging && w.disk.staging[tmp].mtime >= cutoff)
    && (forall tmp :: tmp in w'.disk.staging ==> w'.disk.staging[tmp] == w.disk.staging[tmp])
  }

  ghost predicate FileStays(w: World, w': World, name: Disk.Name, cutoff: Time)
    requires name in w.disk.files
  {
    || name.Foreign? || (exists id :: id in w'.disk.arts && w'.disk.arts[id].key == name.key)
    || ((forall id :: id in w.disk.arts ==> w.disk.arts[id].key != name.key) && w.disk.files[name].mtime >= cutoff)
  }

  lemma {:induction false} NeededInUse(w: World, t: Id, cutoff: Time, w': World, id: Id)
    requires SameTables(Deleted(w, t, cutoff), w')
    ensures Needed(w'.rows, id) <==> InUse(w.rows, Rows.Outdated(w.rows, cutoff), id)
  {
    if r, i :| r in w'.rows.revs && i in w'.rows.revs[r].tests && (w'.rows.revs[r].tests[i].input == id || w'.rows.revs[r].tests[i].output == id) {
      assert UsesRow(w.rows.revs[r].tests[i], id) && Uses(w.rows.revs[r], id);
    }
    if p :| p in w.rows.previews && p !in Rows.Outdated(w.rows, cutoff) && w.rows.previews[p].artifact == id {
      assert p in w'.rows.previews;
    }
  }

  lemma DeletedRows(w: World, t: Id, cutoff: Time, w': World)
    requires SameTables(Deleted(w, t, cutoff), w')
    ensures RowsCollected(w, w', cutoff)
  {
    forall id ensures Needed(w'.rows, id) <==> InUse(w.rows, Rows.Outdated(w.rows, cutoff), id) { NeededInUse(w, t, cutoff, w', id); }
  }

  lemma KeysDiffer(w: Sound, i: Id, j: Id)
    requires i in w.disk.arts && j in w.disk.arts && w.disk.arts[i].key == w.disk.arts[j].key
    ensures i == j
  {
    var k := w.disk.arts[i].key;
    assert DiskSafety.Bears(w.disk, DiskSafety.Row(i), k) && DiskSafety.Bears(w.disk, DiskSafety.Row(j), k);
  }

  /** Of the keys that had a row, exactly those of the deleted rows are in the queue. */
  lemma QueuedKeys(w: Sound, t: Id, cutoff: Time, k: nat)
    ensures k in Disk.KeysOf(Disk.Among(w.disk.arts, Unused(w, cutoff))) <==>
            Disk.HasRow(w.disk, k) && !Disk.HasRow(Deleted(w, t, cutoff).disk, k)
  {
    hide Imports.Good;
    var unused := Unused(w, cutoff);
    if id :| id in w.disk.arts && id in unused && w.disk.arts[id].key == k {
      forall j | j in w.disk.arts && w.disk.arts[j].key == k ensures j == id { KeysDiffer(w, j, id); }
      assert id in Disk.Among(w.disk.arts, unused);
    }
    if id :| id in w.disk.arts && w.disk.arts[id].key == k && id !in unused {
      assert id in Deleted(w, t, cutoff).disk.arts;
      forall j | j in w.disk.arts && w.disk.arts[j].key == k ensures j == id { KeysDiffer(w, j, id); }
    }
  }

  /** The directory after the three sweeps. */
  lemma CollectedFiles(w: Sound, t: Id, cutoff: Time, w': World, queue: set<nat>, orphans: set<nat>)
    requires queue == Disk.KeysOf(Disk.Among(w.disk.arts, Unused(w, cutoff)))
    requires w'.disk.arts == Deleted(w, t, cutoff).disk.arts
    requires forall k :: k in orphans <==>
      Disk.Stored(k) in w.disk.files && k !in queue && w.disk.files[Disk.Stored(k)].mtime < cutoff && !Disk.HasRow(w'.disk, k)
    requires w'.disk.files == w.disk.files - Names(queue) - Names(orphans)
    requires w'.disk.staging == w.disk.staging - OldStaging(w.disk, cutoff)
    ensures FilesCollected(w, w', cutoff)
  {
    hide Imports.Good;
    forall name ensures name in w'.disk.files <==> name in w.disk.files && FileStays(w, w', name, cutoff) {
      if name.Stored? {
        QueuedKeys(w, t, cutoff, name.key);
        assert Disk.HasRow(w'.disk, name.key) <==> Disk.HasRow(Deleted(w, t, cutoff).disk, name.key);
        assert name in Names(queue) <==> name.key in queue;
        assert name in Names(orphans) <==> name.key in orphans;
      }
    }
  }

  lemma DeletingAhead(w: World, t: Id, cutoff: Time, deleted: set<Id>)
    requires Idle(w)
    ensures Working(Deleting(w, t, cutoff, deleted), t) && Files.Ahead(w, Deleting(w, t, cutoff, deleted), t)
  {
  }

  /** Rows first: the files are touched only after the deletions have been committed. */
  method DeleteRows(sys: Server, t: Id, cutoff: Time, faults: bool) returns (ok: bool)
    requires Idle(sys.w) && cutoff <= sys.w.disk.clock - HOUR
    modifies sys
    ensures ok ==> sys.w == Deleted(old(sys.w), t, cutoff)
    ensures !ok ==> Idle(sys.w) && Unchanged(old(sys.w), sys.w)
    ensures Entries(sys.w) == Entries(old(sys.w))
    ensures !faults ==> ok
  {
    hide Imports.Good;
    ghost var w0 := sys.w;
    Expire(sys, t, cutoff);
    var fault: bool := *;
    if faults && fault {
      DeletingAhead(w0, t, cutoff, {});
      Files.Cancel(sys, t, w0);
      return false;
    }
    DeleteUnused(sys, t, cutoff, w0);
    fault := *;
    if faults && fault {
      DeletingAhead(w0, t, cutoff, Unused(w0, cutoff));
      Files.Cancel(sys, t, w0);
      return false;
    }
    CommitDeletions(sys, t, cutoff, w0);
    ok := true;
  }

  /** The three sweeps of the directory, each with its own way out. */
  method RemoveFiles(sys: Server, t: Id, cutoff: Time, ghost w0: Sound, faults: bool) returns (removed: nat, ok: bool)
    requires sys.w == Deleted(w0, t, cutoff) && w0.disk.mu.Free?
    modifies sys
    ensures Idle(sys.w) && SameTables(Deleted(w0, t, cutoff), sys.w)
    ensures ok ==> FilesCollected(w0, sys.w, cutoff)
    ensures removed == Entries(old(sys.w)) - Entries(sys.w)
    ensures !faults ==> ok
  {
    hide Imports.Good;
    ghost var queue := sys.w.disk.jobs[t].keys;
    QueuedFiles(w0, t, cutoff);
    removed, ok := Unlink(sys, t, cutoff, faults);
    if !ok { return; }
    ghost var w2 := sys.w;
    var staging, orphans;
    staging, ok := CollectTemporary(sys, t, cutoff, faults);
    removed := removed + staging;
    if !ok {
      Quit(sys, t);
      return;
    }
    ghost var w3 := sys.w;
    orphans, ok := SweepOrphans(sys, t, cutoff, faults);
    removed := removed + orphans;
    Quit(sys, t);
    if ok { Collects(w0, t, cutoff, queue, w2, w3, sys.w); }
  }

  /** The files of the deleted rows are there to be removed. */
  lemma {:induction false} QueuedFiles(w: Sound, t: Id, cutoff: Time)
    ensures forall k :: k in Deleted(w, t, cutoff).disk.jobs[t].keys ==> Disk.Stored(k) in w.disk.files
  {
    hide Imports.Good;
    var rows := Disk.Among(w.disk.arts, Unused(w, cutoff));
    forall k | k in Disk.KeysOf(rows) ensures Disk.Stored(k) in w.disk.files {
      var id :| id in rows && rows[id].key == k;
      HasFile(w, id);
    }
  }

  lemma HasFile(w: Sound, id: Id)
    requires id in w.disk.arts
    ensures Disk.Stored(w.disk.arts[id].key) in w.disk.files
  {
    WorldRuns.RowOnFile(w, id);
  }

  lemma Collects(w0: Sound, t: Id, cutoff: Time, queue: set<nat>, w2: World, w3: World, w': World)
    requires queue == Disk.KeysOf(Disk.Among(w0.disk.arts, Unused(w0, cutoff)))
    requires w2 == At(Deleted(w0, t, cutoff), t, queue, Disk.Sweep(cutoff))
    requires w3.disk.files == w2.disk.files && w3.disk.arts == w2.disk.arts
    requires w3.disk.staging == w2.disk.staging - OldStaging(w2.disk, cutoff)
    requires w'.disk.files == w3.disk.files - Names(Orphans(w3.disk, cutoff))
    requires w'.disk.arts == w3.disk.arts && w'.disk.staging == w3.disk.staging
    ensures FilesCollected(w0, w', cutoff)
  {
    hide Imports.Good;
    forall k ensures k in Orphans(w3.disk, cutoff) <==>
      Disk.Stored(k) in w0.disk.files && k !in queue && w0.disk.files[Disk.Stored(k)].mtime < cutoff && !Disk.HasRow(w'.disk, k)
    {
      assert Disk.HasRow(w3.disk, k) <==> Disk.HasRow(w'.disk, k);
      assert Disk.Stored(k) in Names(queue) <==> k in queue;
    }
    CollectedFiles(w0, t, cutoff, w', queue, Orphans(w3.disk, cutoff));
  }

  /**
    A collection that runs alone.  Without faults it completes, and then nothing that is older than the hour of
    grace is left unreferenced: no preview, no row, no generated file and no staging file; and everything else
    is still there.  Before its transaction commits a failure changes nothing; after that, it only leaves files.
    Complete or not, it reports how many directory entries it has removed.
  */
  method Collect(sys: Server, t: Id, faults: bool) returns (removed: nat, ok: bool)
    requires Idle(sys.w)
    modifies sys
    ensures Idle(sys.w)
    ensures ok ==> FilesCollected(old(sys.w), sys.w, old(sys.w).disk.clock - 60 * 60)
    ensures ok ==> RowsCollected(old(sys.w), sys.w, old(sys.w).disk.clock - 60 * 60)
    ensures !ok ==> Unchanged(old(sys.w), sys.w) || RowsCollected(old(sys.w), sys.w, old(sys.w).disk.clock - 60 * 60)
    ensures removed == Entries(old(sys.w)) - Entries(sys.w)
    ensures !faults ==> ok
  {
    hide Imports.Good, Entries;
    ghost var w0 := sys.w;
    var cutoff := sys.w.disk.clock - HOUR;
    ok := DeleteRows(sys, t, cutoff, faults);
    if !ok { return 0, false; }
    removed, ok := RemoveFiles(sys, t, cutoff, w0, faults);
    DeletedRows(w0, t, cutoff, sys.w);
  }
}
