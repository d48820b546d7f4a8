/**
  The artifact store: metadata rows, the files in the artifact directory, the storage
  mutex and the threads that use them (internal/artifact/store.go and the file half of
  internal/content/files.go), as a state machine whose steps are the indivisible ones:
  one file-system call, one SQL statement, one commit.  Any interleaving is a sequence of
  these steps; a crash may come between any two of them.
*/
module Disk {
  import opened Base

  /** A directory entry that is not staging: a generated 64-digit name, or anything else. */
  datatype Name = Stored(key: nat) | Foreign(n: nat)

  datatype File = File(bytes: Bytes, mtime: Time)

  /** SHA-256 is taken to be injective, so the digest is the content itself. */
  datatype Artifact = Artifact(owner: Id, key: nat, digest: Bytes, size: nat, created: Time)

  /** How far the Save that holds the mutex has come. */
  datatype Phase =
    | Staged
    | Scanning(left: set<Name>, used: nat)
    | Renamed(key: nat)

  datatype Mutex =
    | Free
    | Saving(tid: Id, tmp: nat, bytes: Bytes, phase: Phase)
    | Sweeping(tid: Id)

  /** The artifact statements of an open transaction; `cutoff` is set for the collector. */
  datatype Tx = Tx(begun: Time, saved: map<Id, Artifact>, deleted: set<Id>, cutoff: Option<Time>, failed: bool)

  /** What a thread still has to do after its transaction has ended. */
  datatype Job =
    | Undo(keys: set<nat>)
    | Unlink(cutoff: Time, keys: set<nat>)
    | Sweep(cutoff: Time)
    | Orphans(cutoff: Time, left: set<nat>, doomed: Option<nat>)

  /**
    `arts` holds the committed rows; `used` the keys ever drawn; `stray` those files that a
    crash, a failed removal or an abandoned job left behind.
  */
  datatype State = State(
    clock: Time, quota: nat,
    arts: map<Id, Artifact>, next: Id,
    files: map<Name, File>, staging: map<nat, File>, used: set<nat>,
    mu: Mutex, txs: map<Id, Tx>, jobs: map<Id, Job>, stray: set<nat>)

  datatype Action =
    | Tick(d: nat)
    | Crash
    | Begin(t: Id, cutoff: Option<Time>)
    | Stage(t: Id, tmp: nat, bytes: Bytes)
    | List(t: Id)
    | Scan(t: Id, name: Name)
    | Rename(t: Id, key: nat)
    | Insert(t: Id, owner: Id)
    | Fail(t: Id, removed: bool)
    | Delete(t: Id, id: Id)
    | Commit(t: Id)
    | Abort(t: Id)
    | Remove(t: Id, key: nat, removed: bool)
    | Next(t: Id)
    | SweepLock(t: Id)
    | DropStaging(t: Id, tmp: nat)
    | SweepUnlock(t: Id)
    | Check(t: Id, key: nat)
    | Pass(t: Id, key: nat)
    | RemoveOrphan(t: Id)
    | End(t: Id)

  predicate Holds(s: State, t: Id) {
    match s.mu
    case Free => false
    case Saving(h, _, _, _) => h == t
    case Sweeping(h) => h == t
  }

  function KeysOf(rows: map<Id, Artifact>): (keys: set<nat>)
    ensures forall id :: id in rows ==> rows[id].key in keys
  {
    set id | id in rows :: rows[id].key
  }

  function Among(rows: map<Id, Artifact>, ids: set<Id>): map<Id, Artifact> {
    map id | id in rows && id in ids :: rows[id]
  }

  /** The keys that the job of a thread is about to unlink. */
  function Queue(j: Job): set<nat> {
    match j
    case Undo(keys) => keys
    case Unlink(_, keys) => keys
    case Sweep(_) => {}
    case Orphans(_, _, doomed) => if doomed.Some? then {doomed.value} else {}
  }

  predicate HasRow(s: State, key: nat) {
    exists id :: id in s.arts && s.arts[id].key == key
  }

  /** When a step can be taken: the tests the code makes, and what the locks make it wait for. */
  predicate Enabled(s: State, a: Action) {
    match a
    // No transaction stays open for the whole grace period.
    case Tick(d) => forall t :: t in s.txs ==> s.clock + d < s.txs[t].begun + HOUR
    case Crash => true
    case Begin(t, cutoff) =>
      && t !in s.txs && t !in s.jobs
      && (cutoff.Some? ==> cutoff.value <= s.clock - HOUR)
    case Stage(t, tmp, _) => t in s.txs && !s.txs[t].failed && s.mu.Free? && tmp !in s.staging
    case List(t) => s.mu.Saving? && s.mu.tid == t && s.mu.phase.Staged? && s.quota > 0
    case Scan(t, name) =>
      && s.mu.Saving? && s.mu.tid == t && s.mu.phase.Scanning?
      && name in s.mu.phase.left && name in s.files
    case Rename(t, key) =>
      && s.mu.Saving? && s.mu.tid == t && key !in s.used
      && s.mu.tmp in s.staging
      && match s.mu.phase {
           case Staged => s.quota == 0
           case Scanning(left, used) => left == {} && |s.mu.bytes| <= s.quota - used
           case Renamed(_) => false
         }
    case Insert(t, _) => s.mu.Saving? && s.mu.tid == t && s.mu.phase.Renamed? && t in s.txs
    case Fail(t, _) => s.mu.Saving? && s.mu.tid == t && t in s.txs
    case Delete(t, id) =>
      && t in s.txs && s.txs[t].cutoff.Some? && id in s.arts
      && s.arts[id].created < s.txs[t].cutoff.value
      && forall u :: u in s.txs ==> id !in s.txs[u].deleted
    case Commit(t) => t in s.txs && !s.txs[t].failed && !Holds(s, t)
    case Abort(t) => t in s.txs && !Holds(s, t)
    case Remove(t, key, _) =>
      t in s.jobs && (s.jobs[t].Undo? || s.jobs[t].Unlink?) && key in s.jobs[t].keys
    case Next(t) => t in s.jobs && s.jobs[t].Unlink? && s.jobs[t].keys == {}
    case SweepLock(t) => t in s.jobs && s.jobs[t].Sweep? && s.mu.Free?
    case DropStaging(t, tmp) =>
      && s.mu == Sweeping(t) && t in s.jobs && s.jobs[t].Sweep?
      && tmp in s.staging && s.staging[tmp].mtime < s.jobs[t].cutoff
    case SweepUnlock(t) => s.mu == Sweeping(t) && t in s.jobs && s.jobs[t].Sweep?
    case Check(t, key) =>
      && t in s.jobs && s.jobs[t].Orphans? && s.jobs[t].doomed.None? && key in s.jobs[t].left
      && Stored(key) in s.files && s.files[Stored(key)].mtime < s.jobs[t].cutoff
      && !HasRow(s, key)
    case Pass(t, key) => t in s.jobs && s.jobs[t].Orphans? && key in s.jobs[t].left
    case RemoveOrphan(t) => t in s.jobs && s.jobs[t].Orphans? && s.jobs[t].doomed.Some?
    case End(t) => t in s.jobs && !Holds(s, t)
  }

  function Keys(s: State): set<nat> {
    set name | name in s.files && name.Stored? :: name.key
  }

  function Apply(s: State, a: Action): State
    requires Enabled(s, a)
  {
    match a
    case Tick(d) => s.(clock := s.clock + d)
    // Open transactions and everything in memory vanish; rows and files stay.
    case Crash => s.(mu := Free, txs := map[], jobs := map[], stray := s.stray + Keys(s) - KeysOf(s.arts))
    case Begin(t, cutoff) => s.(txs := s.txs[t := Tx(s.clock, map[], {}, cutoff, false)])
    case Stage(t, tmp, bytes) =>
      s.(staging := s.staging[tmp := File(bytes, s.clock)], mu := Saving(t, tmp, bytes, Staged))
    case List(t) => s.(mu := s.mu.(phase := Scanning(s.files.Keys, 0)))
    case Scan(t, name) =>
      var p := s.mu.phase;
      s.(mu := s.mu.(phase := Scanning(p.left - {name}, p.used + |s.files[name].bytes|)))
    case Rename(t, key) =>
      s.(files := s.files[Stored(key) := s.staging[s.mu.tmp]], staging := s.staging - {s.mu.tmp},
         used := s.used + {key}, mu := s.mu.(phase := Renamed(key)))
    case Insert(t, owner) =>
      var row := Artifact(owner, s.mu.phase.key, s.mu.bytes, |s.mu.bytes|, s.clock);
      var x := s.txs[t];
      s.(txs := s.txs[t := x.(saved := x.saved[s.next := row])], next := s.next + 1, mu := Free)
    case Fail(t, removed) =>
      var s := s.(staging := s.staging - {s.mu.tmp}, txs := s.txs[t := s.txs[t].(failed := true)]);
      if !s.mu.phase.Renamed? then s.(mu := Free)
      else if removed then s.(files := s.files - {Stored(s.mu.phase.key)}, mu := Free)
      else s.(stray := s.stray + {s.mu.phase.key}, mu := Free)
    case Delete(t, id) => s.(txs := s.txs[t := s.txs[t].(deleted := s.txs[t].deleted + {id})])
    case Commit(t) =>
      var x := s.txs[t];
      s.(arts := s.arts - x.deleted + x.saved, txs := s.txs - {t},
         jobs := if x.cutoff.Some? then s.jobs[t := Unlink(x.cutoff.value, KeysOf(Among(s.arts, x.deleted)))] else s.jobs)
    case Abort(t) =>
      s.(txs := s.txs - {t}, jobs := s.jobs[t := Undo(KeysOf(s.txs[t].saved))])
    case Remove(t, key, removed) =>
      var s := s.(jobs := s.jobs[t := s.jobs[t].(keys := s.jobs[t].keys - {key})]);
      if removed then s.(files := s.files - {Stored(key)}) else s.(stray := s.stray + {key})
    case Next(t) => s.(jobs := s.jobs[t := Sweep(s.jobs[t].cutoff)])
    case SweepLock(t) => s.(mu := Sweeping(t))
    case DropStaging(t, tmp) => s.(staging := s.staging - {tmp})
    case SweepUnlock(t) => s.(mu := Free, jobs := s.jobs[t := Orphans(s.jobs[t].cutoff, Keys(s), None)])
    case Check(t, key) =>
      s.(jobs := s.jobs[t := s.jobs[t].(left := s.jobs[t].left - {key}, doomed := Some(key))])
    case Pass(t, key) => s.(jobs := s.jobs[t := s.jobs[t].(left := s.jobs[t].left - {key})])
    case RemoveOrphan(t) =>
      s.(files := s.files - {Stored(s.jobs[t].doomed.value)}, jobs := s.jobs[t := s.jobs[t].(doomed := None)])
    case End(t) => s.(jobs := s.jobs - {t}, stray := s.stray + Queue(s.jobs[t]))
  }
}
