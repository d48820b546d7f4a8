/**
  Two bounds on the artifact directory that hold under every interleaving: the quota, although
  removals do not take the mutex, and the account of every stored file, so that only a crash,
  a failed removal or an abandoned job leaves one behind.
*/
module DiskBounds {
  import opened Base
  import opened Disk
  import opened DiskSafety

  // ----- the quota -----

  /** The bytes in a set of directory entries, staging or not. */
  ghost function Total<K>(files: map<K, File>): nat {
    if files == map[] then 0
    else
      var name :| name in files;
      |files[name].bytes| + Total(files - {name})
  }

  lemma {:induction false} TotalRemove<K>(files: map<K, File>, name: K)
    requires name in files
    ensures Total(files) == |files[name].bytes| + Total(files - {name})
    decreases |files|
  {
    var pick :| pick in files && Total(files) == |files[pick].bytes| + Total(files - {pick});
    if pick != name {
      TotalRemove(files - {pick}, name);
      TotalRemove(files - {name}, pick);
      assert files - {pick} - {name} == files - {name} - {pick};
    }
  }

  function Listed(files: map<Name, File>, names: set<Name>): map<Name, File> {
    map n | n in files && n in names :: files[n]
  }

  /** The sum read so far, with what is still to be read, is an upper bound on what is there. */
  ghost predicate ScanCovers(s: State) {
    s.mu.Saving? && s.mu.phase.Scanning? ==>
      Total(s.files) <= s.mu.phase.used + Total(Listed(s.files, s.mu.phase.left))
  }

  ghost predicate WithinQuota(s: State) {
    s.quota > 0 ==> Total(s.files) <= s.quota
  }

  ghost predicate Bounded(s: State) {
    ScanCovers(s) && WithinQuota(s)
  }

  lemma ScanBound(s: State, t: Id, name: Name)
    requires ScanCovers(s) && Enabled(s, Scan(t, name))
    ensures ScanCovers(Apply(s, Scan(t, name)))
  {
    var rest := Listed(s.files, s.mu.phase.left);
    TotalRemove(rest, name);
    assert rest - {name} == Listed(s.files, s.mu.phase.left - {name});
  }

  lemma {:induction false} ScanBounded(s: State, t: Id, name: Name)
    requires Bounded(s) && Enabled(s, Scan(t, name))
    ensures Bounded(Apply(s, Scan(t, name)))
  {
    ScanBound(s, t, name);
  }

  /** A removal by anybody, at any point of the scan, keeps the bound. */
  lemma RemovalBound(s: State, s': State, name: Name)
    requires Bounded(s) && s'.files == s.files - {name} && s'.quota == s.quota
    requires s'.mu == s.mu || s'.mu.Free?
    ensures Bounded(s')
  {
    if name in s.files {
      TotalRemove(s.files, name);
      if s.mu.Saving? && s.mu.phase.Scanning? {
        var left := s.mu.phase.left;
        if name in left {
          TotalRemove(Listed(s.files, left), name);
          assert Listed(s.files, left) - {name} == Listed(s'.files, left);
        } else {
          assert Listed(s.files, left) == Listed(s'.files, left);
        }
      }
    } else {
      assert s'.files == s.files;
    }
  }

  lemma RenameBound(s: State, t: Id, key: nat)
    requires Inv(s) && Bounded(s) && Enabled(s, Rename(t, key))
    ensures Bounded(Apply(s, Rename(t, key)))
  {
    var s' := Apply(s, Rename(t, key));
    if s.quota > 0 {
      assert Listed(s.files, {}) == map[];
      TotalRemove(s'.files, Stored(key));
      assert s'.files - {Stored(key)} == s.files;
    }
  }

  lemma {:induction false} ListBound(s: State, t: Id)
    requires Bounded(s) && Enabled(s, List(t))
    ensures Bounded(Apply(s, List(t)))
  {
    assert Listed(s.files, s.files.Keys) == s.files;
  }

  /** The steps that remove or may remove a stored file. */
  predicate Removes(a: Action) {
    a.Remove? || a.RemoveOrphan? || a.Fail?
  }

  lemma {:induction false} RemovesBound(s: State, a: Action)
    requires Bounded(s) && Enabled(s, a) && Removes(a)
    ensures Bounded(Apply(s, a))
  {
    match a
    case Remove(t, key, removed) => if removed { RemovalBound(s, Apply(s, a), Stored(key)); }
    case RemoveOrphan(t) => RemovalBound(s, Apply(s, a), Stored(s.jobs[t].doomed.value));
    case Fail(t, removed) =>
      if s.mu.phase.Renamed? && removed { RemovalBound(s, Apply(s, a), Stored(s.mu.phase.key)); }
  }

  lemma {:induction false} OtherBound(s: State, a: Action)
    requires Bounded(s) && Enabled(s, a) && !Removes(a) && !a.Scan? && !a.List? && !a.Rename?
    ensures Bounded(Apply(s, a))
  {
    hide Keys, KeysOf, HasRow, Queue, Among, Total, Listed;
  }

  lemma {:induction false} SameQuota(s: State, a: Action)
    requires Enabled(s, a)
    ensures Apply(s, a).quota == s.quota
  {
    hide Keys, KeysOf, HasRow, Queue, Among;
  }

  lemma QuotaKept(s: State, a: Action)
    requires Inv(s) && Bounded(s) && Enabled(s, a)
    ensures Bounded(Apply(s, a)) && Apply(s, a).quota == s.quota
  {
    hide Inv, Bounded, Enabled, Apply;
    SameQuota(s, a);
    match a
    case Scan(t, name) => ScanBounded(s, t, name);
    case List(t) => ListBound(s, t);
    case Rename(t, key) => RenameBound(s, t, key);
    case _ => if Removes(a) { RemovesBound(s, a); } else { OtherBound(s, a); }
  }

  // ----- no file is lost track of -----

  ghost predicate Queued(s: State, t: Id, k: nat) {
    t in s.jobs && k in Queue(s.jobs[t])
  }

  /** Somebody claims the file, somebody is about to remove it, or it is known to be stray. */
  ghost predicate Accounted(s: State, k: nat) {
    (exists o :: Bears(s, o, k)) || (exists t :: Queued(s, t, k)) || k in s.stray
  }

  ghost predicate AllAccounted(s: State) {
    forall k :: Stored(k) in s.files ==> Accounted(s, k)
  }

  /** The steps that may leave a file behind. */
  predicate Sloppy(s: State, a: Action)
    requires Enabled(s, a)
  {
    match a
    case Crash => true
    case Fail(_, removed) => s.mu.phase.Renamed? && !removed
    case Remove(_, _, removed) => !removed
    case End(t) => Queue(s.jobs[t]) != {}
    case _ => false
  }

  /** Removal queues: an entry leaves one only with its file, or as a stray. */
  lemma QueueAccounted(s: State, a: Action, t: Id, k: nat)
    requires Ids(s) && Enabled(s, a) && !a.Crash? && Queued(s, t, k)
    ensures Stored(k) in Apply(s, a).files ==> Queued(Apply(s, a), t, k) || k in Apply(s, a).stray
  {
    hide Keys, KeysOf, HasRow, Among;
    assert t !in s.txs;
  }

  lemma {:induction false} PendingEnds(s: State, a: Action, t: Id, id: Id, k: nat)
    requires Enabled(s, a) && (a.Commit? || a.Abort?) && a.t == t && Bears(s, Pending(t, id), k)
    ensures Accounted(Apply(s, a), k)
  {
    if a.Commit? { assert Bears(Apply(s, a), Row(id), k); } else { assert Queued(Apply(s, a), t, k); }
  }

  lemma {:induction false} PendingStays(s: State, a: Action, t: Id, id: Id, k: nat)
    requires Enabled(s, a) && !a.Crash? && Bears(s, Pending(t, id), k) && id != s.next
    requires !((a.Commit? || a.Abort?) && a.t == t)
    ensures Bears(Apply(s, a), Pending(t, id), k)
  {
    hide Keys, KeysOf, HasRow, Among, Queue;
  }

  lemma PendingAccounted(s: State, a: Action, t: Id, id: Id, k: nat)
    requires Ids(s) && Enabled(s, a) && !a.Crash? && Bears(s, Pending(t, id), k)
    ensures Accounted(Apply(s, a), k)
  {
    hide Enabled, Apply;
    assert Saves(s, t, id);
    if (a.Commit? || a.Abort?) && a.t == t { PendingEnds(s, a, t, id, k); } else { PendingStays(s, a, t, id, k); }
  }

  lemma HeldAccounted(s: State, a: Action, t: Id, k: nat)
    requires MutexOk(s) && Enabled(s, a) && !a.Crash? && Bears(s, Held(t), k) && Stored(k) in Apply(s, a).files
    ensures Accounted(Apply(s, a), k)
  {
    var s' := Apply(s, a);
    if a.Insert? { assert Bears(s', Pending(t, s.next), k); }
    else if a.Fail? { assert k in s'.stray; }
    else { assert Bears(s', Held(t), k); }
  }

  /** Claims: one is given up only with its file, for a queue, for another claim, or as a stray. */
  lemma ClaimAccounted(s: State, a: Action, o: Origin, k: nat)
    requires Ids(s) && MutexOk(s) && Enabled(s, a) && !a.Crash? && Bears(s, o, k) && Stored(k) in Apply(s, a).files
    ensures Accounted(Apply(s, a), k)
  {
    match o
    case Row(id) => RowAccounted(s, a, id, k);
    case Pending(t, id) => PendingAccounted(s, a, t, id, k);
    case Held(t) => HeldAccounted(s, a, t, k);
  }

  lemma RowAccounted(s: State, a: Action, id: Id, k: nat)
    requires Ids(s) && Enabled(s, a) && !a.Crash? && Bears(s, Row(id), k)
    ensures Accounted(Apply(s, a), k)
  {
    if a.Commit? { RowCommits(s, a.t, id); } else { assert Bears(Apply(s, a), Row(id), k); }
  }

  lemma RowCommits(s: State, t: Id, id: Id)
    requires Ids(s) && Enabled(s, Commit(t)) && id in s.arts
    ensures Accounted(Apply(s, Commit(t)), s.arts[id].key)
  {
    var s', k := Apply(s, Commit(t)), s.arts[id].key;
    if id in s.txs[t].deleted {
      assert Deletes(s, t, id) && id in Among(s.arts, s.txs[t].deleted);
      assert Queued(s', t, k);
    } else {
      assert !Saves(s, t, id);
      assert Bears(s', Row(id), k);
    }
  }

  lemma CrashAccounted(s: State, k: nat)
    requires Stored(k) in s.files
    ensures Accounted(Apply(s, Crash), k)
  {
    if id :| id in s.arts && s.arts[id].key == k { assert Bears(Apply(s, Crash), Row(id), k); }
  }

  /** A file that was not there before has just been renamed by the Save that holds it. */
  lemma {:induction false} NewFileHeld(s: State, a: Action, k: nat)
    requires Enabled(s, a) && Stored(k) !in s.files && Stored(k) in Apply(s, a).files
    ensures Accounted(Apply(s, a), k)
  {
    assert a.Rename? && Bears(Apply(s, a), Held(a.t), k);
  }

  lemma {:induction false} StrayGrows(s: State, a: Action)
    requires Enabled(s, a)
    ensures !a.Crash? ==> s.stray <= Apply(s, a).stray
    ensures !Sloppy(s, a) ==> Apply(s, a).stray == s.stray
  {
  }

  lemma {:induction false} FileAccounted(s: State, a: Action, k: nat)
    requires Inv(s) && Enabled(s, a) && Accounted(s, k) && Stored(k) in s.files && Stored(k) in Apply(s, a).files
    ensures Accounted(Apply(s, a), k)
  {
    hide Enabled, Apply, AllBacked, OneClaim, QueuesDead, UsedNames, Timely, Ids, MutexOk, Bears, Queued;
    StrayGrows(s, a);
    if a.Crash? {
      CrashAccounted(s, k);
    } else if o :| Bears(s, o, k) {
      ClaimAccounted(s, a, o, k);
    } else if t :| Queued(s, t, k) {
      QueueAccounted(s, a, t, k);
    }
  }

  /**
    Every stored file stays accounted for.  The set of strays grows only by a crash, by a
    removal that fails, or by a collector that stops early: in every other run a failed file
    transaction leaves no file behind, whichever of its steps failed.
  */
  lemma AccountKept(s: State, a: Action)
    requires Inv(s) && AllAccounted(s) && Enabled(s, a)
    ensures AllAccounted(Apply(s, a))
    ensures !Sloppy(s, a) ==> Apply(s, a).stray == s.stray
  {
    hide Inv, Enabled, Apply, Accounted;
    StrayGrows(s, a);
    forall k | Stored(k) in Apply(s, a).files ensures Accounted(Apply(s, a), k) {
      if Stored(k) in s.files { FileAccounted(s, a, k); } else { NewFileHeld(s, a, k); }
    }
  }

  /** When nobody is at work, every generated file has a row or is a known stray. */
  lemma AtRestNothingIsLost(s: State, k: nat)
    requires AllAccounted(s) && s.txs == map[] && s.jobs == map[] && s.mu.Free? && Stored(k) in s.files
    ensures HasRow(s, k) || k in s.stray
  {
  }
}
