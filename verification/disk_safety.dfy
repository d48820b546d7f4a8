/**
  What every step of the artifact store keeps, whatever the interleaving: each row has its
  file, the removal queues hold only dead keys, the quota is never exceeded and no file is
  lost track of.
*/
module DiskSafety {
  import opened Base
  import opened Disk

  // ----- who still needs a file -----

  /** A claim on a stored file: a committed row, a row of an open transaction, or a Save before its insert. */
  datatype Origin = Row(id: Id) | Pending(tid: Id, id: Id) | Held(tid: Id)

  ghost predicate Bears(s: State, o: Origin, k: nat) {
    match o
    case Row(id) => id in s.arts && s.arts[id].key == k
    case Pending(t, id) => t in s.txs && id in s.txs[t].saved && s.txs[t].saved[id].key == k
    case Held(t) => s.mu.Saving? && s.mu.tid == t && s.mu.phase == Renamed(k)
  }

  ghost function Content(s: State, o: Origin, k: nat): Bytes
    requires Bears(s, o, k)
  {
    match o
    case Row(id) => s.arts[id].digest
    case Pending(t, id) => s.txs[t].saved[id].digest
    case Held(t) => s.mu.bytes
  }

  ghost function Size(s: State, o: Origin, k: nat): nat
    requires Bears(s, o, k)
  {
    match o
    case Row(id) => s.arts[id].size
    case Pending(t, id) => s.txs[t].saved[id].size
    case Held(t) => |s.mu.bytes|
  }

  /** The file a claim is about is there, with the bytes and the size that were recorded. */
  ghost predicate Backed(s: State, o: Origin, k: nat)
    requires Bears(s, o, k)
  {
    && k in s.used
    && Stored(k) in s.files
    && s.files[Stored(k)].bytes == Content(s, o, k)
    && |s.files[Stored(k)].bytes| == Size(s, o, k)
    && match o
       case Row(_) => true
       case Pending(t, _) => s.txs[t].begun <= s.files[Stored(k)].mtime
       case Held(t) => t in s.txs && s.txs[t].begun <= s.files[Stored(k)].mtime
  }

  ghost predicate AllBacked(s: State) {
    forall o, k :: Bears(s, o, k) ==> Backed(s, o, k)
  }

  ghost predicate OneClaim(s: State) {
    forall o1, o2, k :: Bears(s, o1, k) && Bears(s, o2, k) ==> o1 == o2
  }

  /** Nothing will ever need this file again: the key was drawn, and nobody has a claim on it. */
  ghost predicate Dead(s: State, k: nat) {
    k in s.used && forall o :: !Bears(s, o, k)
  }

  ghost predicate QueuesDead(s: State) {
    forall t, k :: t in s.jobs && k in Queue(s.jobs[t]) ==> Dead(s, k)
  }

  ghost predicate UsedNames(s: State) {
    forall k :: Stored(k) in s.files ==> k in s.used
  }

  ghost predicate TimelyTx(s: State, x: Tx) {
    x.begun <= s.clock < x.begun + HOUR && (x.cutoff.Some? ==> x.cutoff.value <= s.clock - HOUR)
  }

  ghost predicate TimelyJob(s: State, j: Job) {
    !j.Undo? ==> j.cutoff <= s.clock - HOUR
  }

  ghost predicate Timely(s: State) {
    && (forall t :: t in s.txs ==> TimelyTx(s, s.txs[t]))
    && (forall t :: t in s.jobs ==> TimelyJob(s, s.jobs[t]))
  }

  ghost predicate Saves(s: State, t: Id, id: Id) {
    t in s.txs && id in s.txs[t].saved
  }

  ghost predicate Deletes(s: State, t: Id, id: Id) {
    t in s.txs && id in s.txs[t].deleted
  }

  /** Row numbers: new ones are fresh, and no two transactions insert or delete the same row. */
  ghost predicate Ids(s: State) {
    && (forall id :: id in s.arts ==> id < s.next)
    && (forall t: Id, id: Id :: Saves(s, t, id) ==> id < s.next && id !in s.arts)
    && (forall t: Id, u: Id, id: Id :: Saves(s, t, id) && Saves(s, u, id) ==> t == u)
    && (forall t: Id, id: Id :: Deletes(s, t, id) ==> id in s.arts && s.txs[t].cutoff.Some?)
    && (forall t: Id, u: Id, id: Id :: Deletes(s, t, id) && Deletes(s, u, id) ==> t == u)
    && s.txs.Keys !! s.jobs.Keys
  }

  /** The holder of the mutex is alive, and a Save that has not renamed yet still owns its staging file. */
  ghost predicate MutexOk(s: State) {
    match s.mu
    case Free => true
    case Saving(t, tmp, bytes, phase) =>
      && t in s.txs
      && (!phase.Renamed? ==>
            tmp in s.staging && s.staging[tmp].bytes == bytes && s.txs[t].begun <= s.staging[tmp].mtime)
    case Sweeping(t) => t in s.jobs && s.jobs[t].Sweep?
  }

  ghost predicate Inv(s: State) {
    && AllBacked(s) && OneClaim(s) && QueuesDead(s)
    && UsedNames(s) && Timely(s) && Ids(s) && MutexOk(s)
  }

  // ----- one step: the clock, the numbers and the mutex -----

  ghost predicate Books(s: State) {
    UsedNames(s) && Timely(s) && Ids(s) && MutexOk(s)
  }

  lemma NamesKept(s: State, a: Action)
    requires UsedNames(s) && Enabled(s, a)
    ensures UsedNames(Apply(s, a))
  {
  }

  lemma TimelyKept(s: State, a: Action)
    requires Timely(s) && Enabled(s, a)
    ensures Timely(Apply(s, a))
  {
    if a.Tick? { TickTimely(s, a.d); } else { ActTimely(s, a); }
  }

  lemma TickTimely(s: State, d: nat)
    requires Timely(s) && Enabled(s, Tick(d))
    ensures Timely(Apply(s, Tick(d)))
  {
  }

  lemma TxsTimely(s: State, a: Action)
    requires Timely(s) && Enabled(s, a) && !a.Tick?
    ensures forall t :: t in Apply(s, a).txs ==> TimelyTx(s, Apply(s, a).txs[t])
  {
    var s' := Apply(s, a);
    forall t | t in s'.txs ensures TimelyTx(s, s'.txs[t]) { assert a.Begin? || (t in s.txs && TimelyTx(s, s.txs[t])); }
  }

  lemma JobsTimely(s: State, a: Action)
    requires Timely(s) && Enabled(s, a) && !a.Tick?
    ensures forall t :: t in Apply(s, a).jobs ==> TimelyJob(s, Apply(s, a).jobs[t])
  {
    var s' := Apply(s, a);
    forall t | t in s'.jobs ensures TimelyJob(s, s'.jobs[t]) {
      assert a.Commit? || a.Abort? || (t in s.jobs && TimelyJob(s, s.jobs[t]));
    }
  }

  lemma ActTimely(s: State, a: Action)
    requires Timely(s) && Enabled(s, a) && !a.Tick?
    ensures Timely(Apply(s, a))
  {
    TxsTimely(s, a);
    JobsTimely(s, a);
    SameClock(s, a);
  }

  lemma SameClock(s: State, a: Action)
    requires Enabled(s, a) && !a.Tick?
    ensures Apply(s, a).clock == s.clock
  {
  }

  /** The steps of the Save that holds the mutex. */
  lemma SaveMutex(s: State, a: Action)
    requires Timely(s) && MutexOk(s) && Enabled(s, a)
    requires a.Stage? || a.List? || a.Scan? || a.Rename? || a.Insert? || a.Fail?
    ensures MutexOk(Apply(s, a))
  {
  }

  lemma SweepMutex(s: State, a: Action)
    requires Ids(s) && MutexOk(s) && Enabled(s, a)
    requires a.SweepLock? || a.DropStaging? || a.SweepUnlock? || a.Crash? || a.Begin? || a.Commit? || a.Abort?
    ensures MutexOk(Apply(s, a))
  {
  }

  lemma OtherMutex(s: State, a: Action)
    requires MutexOk(s) && Enabled(s, a)
    requires a.Tick? || a.Delete? || a.Remove? || a.Next? || a.Check? || a.Pass? || a.RemoveOrphan? || a.End?
    ensures MutexOk(Apply(s, a))
  {
    hide Keys, KeysOf, HasRow, Queue, Among;
  }

  lemma MutexKept(s: State, a: Action)
    requires Timely(s) && Ids(s) && MutexOk(s) && Enabled(s, a)
    ensures MutexOk(Apply(s, a))
  {
    if a.Stage? || a.List? || a.Scan? || a.Rename? || a.Insert? || a.Fail? { SaveMutex(s, a); }
    else if a.Tick? || a.Delete? || a.Remove? || a.Next? || a.Check? || a.Pass? || a.RemoveOrphan? || a.End? { OtherMutex(s, a); }
    else { SweepMutex(s, a); }
  }

  lemma IdsKept(s: State, a: Action)
    requires Ids(s) && Enabled(s, a)
    ensures Ids(Apply(s, a))
  {
    hide Ids, Enabled, Apply;
    match a
    case Commit(t) => CommitIds(s, t);
    case Insert(t, owner) => InsertIds(s, t, owner);
    case Delete(t, id) => DeleteIds(s, t, id);
    case Fail(t, removed) => FailIds(s, t, removed);
    case Begin(t, cutoff) => BeginIds(s, t, cutoff);
    case Abort(t) => AbortIds(s, t);
    case _ => OtherIds(s, a);
  }

  lemma {:induction false} OtherIds(s: State, a: Action)
    requires Ids(s) && Enabled(s, a)
    requires !a.Commit? && !a.Insert? && !a.Delete? && !a.Fail? && !a.Begin? && !a.Abort?
    ensures Ids(Apply(s, a))
  {
    hide Ids, Keys, KeysOf, HasRow, Queue, Among;
    IdsSame(s, Apply(s, a));
  }

  lemma IdsSame(s: State, s': State)
    requires Ids(s) && s'.arts == s.arts && s'.next == s.next
    requires s'.txs == s.txs || s'.txs == map[]
    requires s'.txs != map[] ==> s'.jobs.Keys <= s.jobs.Keys
    ensures Ids(s')
  {
    assert forall t, id :: (Saves(s', t, id) ==> Saves(s, t, id)) && (Deletes(s', t, id) ==> Deletes(s, t, id));
  }

  lemma InsertIds(s: State, t: Id, owner: Id)
    requires Ids(s) && Enabled(s, Insert(t, owner))
    ensures Ids(Apply(s, Insert(t, owner)))
  {
    var s' := Apply(s, Insert(t, owner));
    assert forall u, id :: Saves(s', u, id) <==> Saves(s, u, id) || (u == t && id == s.next);
    assert forall u, id :: Deletes(s', u, id) <==> Deletes(s, u, id);
  }

  lemma DeleteIds(s: State, t: Id, id: Id)
    requires Ids(s) && Enabled(s, Delete(t, id))
    ensures Ids(Apply(s, Delete(t, id)))
  {
    var s' := Apply(s, Delete(t, id));
    assert forall u, i :: Saves(s', u, i) <==> Saves(s, u, i);
    assert forall u, i :: Deletes(s', u, i) <==> Deletes(s, u, i) || (u == t && i == id);
  }

  lemma FailIds(s: State, t: Id, removed: bool)
    requires Ids(s) && Enabled(s, Fail(t, removed))
    ensures Ids(Apply(s, Fail(t, removed)))
  {
    var s' := Apply(s, Fail(t, removed));
    assert forall u, id :: (Saves(s', u, id) <==> Saves(s, u, id)) && (Deletes(s', u, id) <==> Deletes(s, u, id));
  }

  lemma BeginIds(s: State, t: Id, cutoff: Option<Time>)
    requires Ids(s) && Enabled(s, Begin(t, cutoff))
    ensures Ids(Apply(s, Begin(t, cutoff)))
  {
    var s' := Apply(s, Begin(t, cutoff));
    assert forall u, id :: (Saves(s', u, id) <==> Saves(s, u, id)) && (Deletes(s', u, id) <==> Deletes(s, u, id));
  }

  lemma AbortIds(s: State, t: Id)
    requires Ids(s) && Enabled(s, Abort(t))
    ensures Ids(Apply(s, Abort(t)))
  {
    var s' := Apply(s, Abort(t));
    assert forall u, id :: (Saves(s', u, id) ==> Saves(s, u, id)) && (Deletes(s', u, id) ==> Deletes(s, u, id));
  }

  lemma CommitIds(s: State, t: Id)
    requires Ids(s) && Enabled(s, Commit(t))
    ensures Ids(Apply(s, Commit(t)))
  {
    var s' := Apply(s, Commit(t));
    forall u: Id, id: Id | Deletes(s', u, id) ensures Deletes(s, u, id) && id in s'.arts && s'.txs[u].cutoff.Some? {
      assert Deletes(s, u, id) && !Deletes(s, t, id);
    }
    forall u: Id, id: Id | Saves(s', u, id) ensures Saves(s, u, id) && id < s'.next && id !in s'.arts {
      assert Saves(s, u, id) && !Saves(s, t, id);
    }
    forall id | id in s'.arts ensures id < s'.next {
      assert id in s.arts || Saves(s, t, id);
    }
  }

  lemma BooksKept(s: State, a: Action)
    requires Books(s) && Enabled(s, a)
    ensures Books(Apply(s, a))
  {
    NamesKept(s, a);
    TimelyKept(s, a);
    IdsKept(s, a);
    MutexKept(s, a);
  }

  // ----- one step: the claims -----

  ghost predicate Claims(s: State) {
    AllBacked(s) && OneClaim(s) && QueuesDead(s)
  }

  /** A step that makes no new claim: whatever was dead stays dead. */
  lemma NoNewClaim(s: State, s': State)
    requires Claims(s) && s.used <= s'.used
    requires forall o, k :: Bears(s', o, k) ==> Bears(s, o, k) && Backed(s', o, k)
    requires forall t, k :: t in s'.jobs && k in Queue(s'.jobs[t]) ==> Dead(s', k) || Dead(s, k)
    ensures Claims(s')
  {
  }

  /** Steps that leave the rows, the stored files and the pending rows as they are. */
  ghost predicate SameClaims(s: State, s': State) {
    && s'.arts == s.arts && s'.files == s.files && s.used == s'.used
    && s'.txs.Keys == s.txs.Keys
    && (forall t :: t in s.txs ==> s'.txs[t].saved == s.txs[t].saved && s'.txs[t].begun == s.txs[t].begun)
    && (s'.mu.Saving? && s'.mu.phase.Renamed? ==> s'.mu == s.mu)
  }

  lemma SameClaimsKept(s: State, s': State)
    requires Claims(s) && SameClaims(s, s')
    requires forall t, k :: t in s'.jobs && k in Queue(s'.jobs[t]) ==> Dead(s, k)
    ensures Claims(s')
  {
    forall o, k | Bears(s', o, k) ensures Bears(s, o, k) && Backed(s', o, k) {
      assert Bears(s, o, k) && Backed(s, o, k);
    }
    NoNewClaim(s, s');
  }

  /** Removing a dead key's file hurts nobody. */
  lemma RemovalKept(s: State, s': State, dead: nat)
    requires Claims(s) && Dead(s, dead)
    requires s' == s.(files := s.files - {Stored(dead)}, jobs := s'.jobs)
    requires forall t, k :: t in s'.jobs && k in Queue(s'.jobs[t]) ==> Dead(s, k)
    ensures Claims(s')
  {
    forall o, k | Bears(s', o, k) ensures Bears(s, o, k) && Backed(s', o, k) {
      assert Bears(s, o, k) && Backed(s, o, k);
    }
    NoNewClaim(s, s');
  }

  lemma RenameKept(s: State, t: Id, key: nat)
    requires Claims(s) && MutexOk(s) && Enabled(s, Rename(t, key))
    ensures Claims(Apply(s, Rename(t, key)))
  {
    var s' := Apply(s, Rename(t, key));
    forall o, k | Bears(s', o, k)
      ensures Backed(s', o, k) && if k == key then o == Held(t) else Bears(s, o, k)
    {
      if o != Held(t) { assert Bears(s, o, k) && Backed(s, o, k); }
    }
    forall o1, o2, k | Bears(s', o1, k) && Bears(s', o2, k) ensures o1 == o2 {
      if k != key { assert Bears(s, o1, k) && Bears(s, o2, k); }
    }
    forall u, k | u in s'.jobs && k in Queue(s'.jobs[u]) ensures Dead(s', k) { assert Dead(s, k); }
  }

  /** A step that hands a claim on: `was` names the claim that `now` has taken the place of. */
  lemma ClaimHandedOn(s: State, s': State, was: Origin, now: Origin)
    requires Claims(s) && s.used <= s'.used
    requires forall k :: !Bears(s', was, k)
    requires forall o, k :: Bears(s', o, k) ==> Bears(s, if o == now then was else o, k) && Backed(s', o, k)
    requires s'.jobs == s.jobs
    ensures Claims(s')
  {
    forall o1, o2, k | Bears(s', o1, k) && Bears(s', o2, k) ensures o1 == o2 {
      assert Bears(s, if o1 == now then was else o1, k) && Bears(s, if o2 == now then was else o2, k);
    }
    forall u, k | u in s'.jobs && k in Queue(s'.jobs[u]) ensures Dead(s', k) { assert Dead(s, k); }
  }

  lemma InsertKept(s: State, t: Id, owner: Id)
    requires Claims(s) && Ids(s) && Enabled(s, Insert(t, owner))
    ensures Claims(Apply(s, Insert(t, owner)))
  {
    var s' := Apply(s, Insert(t, owner));
    var now := Pending(t, s.next);
    assert Bears(s, Held(t), s.mu.phase.key) && Backed(s, Held(t), s.mu.phase.key);
    forall o, k | Bears(s', o, k)
      ensures Bears(s, if o == now then Held(t) else o, k) && Backed(s', o, k)
    {
      if o != now { assert Bears(s, o, k) && Backed(s, o, k); }
    }
    ClaimHandedOn(s, s', Held(t), now);
  }

  lemma FailKept(s: State, t: Id, removed: bool)
    requires Claims(s) && Enabled(s, Fail(t, removed))
    ensures Claims(Apply(s, Fail(t, removed)))
  {
    var s' := Apply(s, Fail(t, removed));
    if s.mu.phase.Renamed? { assert Bears(s, Held(t), s.mu.phase.key); }
    forall o, k | Bears(s', o, k) ensures Bears(s, o, k) && Backed(s', o, k) {
      assert Bears(s, o, k) && Backed(s, o, k);
    }
    NoNewClaim(s, s');
  }

  /** A commit turns the transaction's claims into rows and gives up the rows it deleted. */
  lemma CommitKept(s: State, t: Id)
    requires Claims(s) && Ids(s) && Enabled(s, Commit(t))
    ensures Claims(Apply(s, Commit(t)))
  {
    var s' := Apply(s, Commit(t));
    var x := s.txs[t];
    forall o, k | Bears(s', o, k)
      ensures Bears(s, Before(x.saved, t, o), k) && Backed(s', o, k)
      ensures o.Row? ==> o.id in x.saved || o.id !in x.deleted
    {
      assert Bears(s, Before(x.saved, t, o), k) && Backed(s, Before(x.saved, t, o), k);
    }
    forall o1, o2, k | Bears(s', o1, k) && Bears(s', o2, k) ensures o1 == o2 {
      assert Bears(s, Before(x.saved, t, o1), k) && Bears(s, Before(x.saved, t, o2), k);
    }
    forall u, k | u in s'.jobs && k in Queue(s'.jobs[u]) ensures Dead(s', k) {
      if u == t && x.cutoff.Some? {
        DeletedKeyIsDead(s, t, k);
      } else {
        assert Dead(s, k);
      }
    }
  }

  ghost function Before(saved: map<Id, Artifact>, t: Id, o: Origin): Origin {
    if o.Row? && o.id in saved then Pending(t, o.id) else o
  }

  lemma DeletedKeyIsDead(s: State, t: Id, k: nat)
    requires AllBacked(s) && OneClaim(s) && Ids(s) && Enabled(s, Commit(t)) && s.txs[t].cutoff.Some?
    requires k in Queue(Apply(s, Commit(t)).jobs[t])
    ensures Dead(Apply(s, Commit(t)), k)
  {
    var s', x := Apply(s, Commit(t)), s.txs[t];
    var id :| id in s.arts && id in x.deleted && s.arts[id].key == k;
    assert Bears(s, Row(id), k) && Backed(s, Row(id), k);
    forall o ensures !Bears(s', o, k) {
      if Bears(s', o, k) {
        assert Bears(s, Before(x.saved, t, o), k);
        assert false;
      }
    }
  }

  lemma AbortKept(s: State, t: Id)
    requires Claims(s) && Ids(s) && Enabled(s, Abort(t))
    ensures Claims(Apply(s, Abort(t)))
  {
    var s' := Apply(s, Abort(t));
    forall o, k | Bears(s', o, k) ensures Bears(s, o, k) && Backed(s', o, k) {
      assert Bears(s, o, k) && Backed(s, o, k);
    }
    forall u, k | u in s'.jobs && k in Queue(s'.jobs[u]) ensures Dead(s', k) || Dead(s, k) {
      if u == t { AbortedKeyIsDead(s, t, k); }
    }
    NoNewClaim(s, s');
  }

  lemma AbortedKeyIsDead(s: State, t: Id, k: nat)
    requires AllBacked(s) && OneClaim(s) && Enabled(s, Abort(t))
    requires k in KeysOf(s.txs[t].saved)
    ensures Dead(Apply(s, Abort(t)), k)
  {
    var s' := Apply(s, Abort(t));
    var id :| id in s.txs[t].saved && s.txs[t].saved[id].key == k;
    assert Bears(s, Pending(t, id), k) && Backed(s, Pending(t, id), k);
    forall o ensures !Bears(s', o, k) {
      if Bears(s', o, k) {
        assert Bears(s, o, k);
        assert false;
      }
    }
  }

  lemma CrashKept(s: State)
    requires Claims(s)
    ensures Claims(Apply(s, Crash))
  {
    var s' := Apply(s, Crash);
    forall o, k | Bears(s', o, k) ensures Bears(s, o, k) && Backed(s', o, k) {
      assert Bears(s, o, k) && Backed(s, o, k);
    }
    NoNewClaim(s, s');
  }

  lemma BeginKept(s: State, t: Id, cutoff: Option<Time>)
    requires Claims(s) && Enabled(s, Begin(t, cutoff))
    ensures Claims(Apply(s, Begin(t, cutoff)))
  {
    var s' := Apply(s, Begin(t, cutoff));
    forall o, k | Bears(s', o, k) ensures Bears(s, o, k) && Backed(s', o, k) {
      assert Bears(s, o, k) && Backed(s, o, k);
    }
    NoNewClaim(s, s');
  }

  /**
    The orphan sweep: a file older than the cutoff without a committed row belongs to nobody,
    because every file of an open transaction is younger than the grace period.
  */
  lemma CheckedKeyIsDead(s: State, t: Id, k: nat)
    requires Inv(s) && Enabled(s, Check(t, k))
    ensures Dead(s, k)
  {
  }

  /** The steps that touch neither a claim nor a stored file. */
  lemma QuietKept(s: State, a: Action)
    requires Claims(s) && Enabled(s, a)
    requires a.Tick? || a.Stage? || a.List? || a.Scan? || a.Delete? || a.Next? || a.SweepLock? || a.DropStaging?
          || a.SweepUnlock? || a.Pass? || a.End?
    ensures Claims(Apply(s, a))
  {
    SameClaimsKept(s, Apply(s, a));
  }

  lemma RemoveKept(s: State, t: Id, k: nat, removed: bool)
    requires Claims(s) && Enabled(s, Remove(t, k, removed))
    ensures Claims(Apply(s, Remove(t, k, removed)))
  {
    var s' := Apply(s, Remove(t, k, removed));
    assert k in Queue(s.jobs[t]);
    if removed { RemovalKept(s, s', k); } else { SameClaimsKept(s, s'); }
  }

  lemma CheckKept(s: State, t: Id, k: nat)
    requires Inv(s) && Enabled(s, Check(t, k))
    ensures Claims(Apply(s, Check(t, k)))
  {
    CheckedKeyIsDead(s, t, k);
    SameClaimsKept(s, Apply(s, Check(t, k)));
  }

  lemma RemoveOrphanKept(s: State, t: Id)
    requires Claims(s) && Enabled(s, RemoveOrphan(t))
    ensures Claims(Apply(s, RemoveOrphan(t)))
  {
    assert s.jobs[t].doomed.value in Queue(s.jobs[t]);
    RemovalKept(s, Apply(s, RemoveOrphan(t)), s.jobs[t].doomed.value);
  }

  lemma ClaimsKept(s: State, a: Action)
    requires Inv(s) && Enabled(s, a)
    ensures Claims(Apply(s, a))
  {
    hide AllBacked, OneClaim, QueuesDead, UsedNames, Timely, Ids, MutexOk, Apply, Enabled;
    match a
    case Crash => CrashKept(s);
    case Begin(t, cutoff) => BeginKept(s, t, cutoff);
    case Rename(t, k) => RenameKept(s, t, k);
    case Insert(t, owner) => InsertKept(s, t, owner);
    case Fail(t, removed) => FailKept(s, t, removed);
    case Commit(t) => CommitKept(s, t);
    case Abort(t) => AbortKept(s, t);
    case Check(t, k) => CheckKept(s, t, k);
    case Remove(t, k, removed) => RemoveKept(s, t, k, removed);
    case RemoveOrphan(t) => RemoveOrphanKept(s, t);
    case _ => QuietKept(s, a);
  }

  lemma StepKept(s: State, a: Action)
    requires Inv(s) && Enabled(s, a)
    ensures Inv(Apply(s, a))
  {
    BooksKept(s, a);
    ClaimsKept(s, a);
  }
}
