/**
  What becomes of the files of a transaction that fails, while everybody else goes on: each of
  them is claimed by it, waits in its own queue, or is gone and never comes back.
*/
module DiskUndo {
  import opened Base
  import opened Disk
  import opened DiskSafety

  /** The file is gone, and nobody will ever need it or make it again. */
  ghost predicate Gone(s: State, k: nat) {
    Dead(s, k) && Stored(k) !in s.files
  }

  /** The transaction has a claim on the file: it is inside a Save, or has saved it. */
  ghost predicate ClaimedBy(s: State, t: Id, k: nat) {
    Bears(s, Held(t), k) || exists id :: Bears(s, Pending(t, id), k)
  }

  predicate ToUndo(s: State, t: Id, k: nat) {
    t in s.jobs && s.jobs[t].Undo? && k in s.jobs[t].keys
  }

  /** A file that the transaction has made and that it either still claims or has to remove. */
  ghost predicate Owes(s: State, t: Id, k: nat) {
    ClaimedBy(s, t, k) || ToUndo(s, t, k)
  }

  /** The steps after which the transaction is no longer bound to clean up, or has failed to. */
  predicate Breaks(s: State, a: Action, t: Id)
    requires Enabled(s, a)
  {
    match a
    case Crash => true
    case Commit(u) => u == t
    case Fail(u, removed) => u == t && s.mu.phase.Renamed? && !removed
    case Remove(u, _, removed) => u == t && !removed
    case End(u) => u == t && Queue(s.jobs[t]) != {}
    case _ => false
  }

  lemma {:induction false} NoRowAgain(s: State, a: Action, id: Id, k: nat)
    requires Enabled(s, a) && Dead(s, k)
    ensures !Bears(Apply(s, a), Row(id), k)
  {
    assert !Bears(s, Row(id), k);
    if a.Commit? { assert !Bears(s, Pending(a.t, id), k); }
  }

  lemma {:induction false} NoPendingAgain(s: State, a: Action, t: Id, id: Id, k: nat)
    requires Enabled(s, a) && Dead(s, k)
    ensures !Bears(Apply(s, a), Pending(t, id), k)
  {
    hide Keys, HasRow, Queue, Among;
    assert !Bears(s, Pending(t, id), k) && !Bears(s, Held(t), k);
  }

  lemma {:induction false} NotHeldAgain(s: State, a: Action, t: Id, k: nat)
    requires Enabled(s, a) && Dead(s, k)
    ensures !Bears(Apply(s, a), Held(t), k)
  {
    assert !Bears(s, Held(t), k);
  }

  /** What is gone stays gone, whatever happens, crashes included. */
  lemma {:induction false} GoneForGood(s: State, a: Action, k: nat)
    requires Enabled(s, a) && Gone(s, k)
    ensures Gone(Apply(s, a), k)
  {
    forall o ensures !Bears(Apply(s, a), o, k) {
      match o
      case Row(id) => NoRowAgain(s, a, id, k);
      case Pending(t, id) => NoPendingAgain(s, a, t, id, k);
      case Held(t) => NotHeldAgain(s, a, t, k);
    }
  }

  lemma {:induction false} HeldOwed(s: State, a: Action, t: Id, k: nat)
    requires Inv(s) && Enabled(s, a) && !Breaks(s, a, t) && Bears(s, Held(t), k)
    ensures Owes(Apply(s, a), t, k) || Stored(k) !in Apply(s, a).files
  {
    var s' := Apply(s, a);
    if a.Insert? { assert Bears(s', Pending(t, s.next), k); }
    else if !a.Fail? { assert Bears(s', Held(t), k); }
  }

  lemma {:induction false} PendingOwed(s: State, a: Action, t: Id, id: Id, k: nat)
    requires Inv(s) && Enabled(s, a) && !Breaks(s, a, t) && Bears(s, Pending(t, id), k)
    ensures Owes(Apply(s, a), t, k)
  {
    hide AllBacked, OneClaim, QueuesDead, Timely, UsedNames, MutexOk, Keys, HasRow, Among;
    var s' := Apply(s, a);
    if a.Abort? && a.t == t { assert ToUndo(s', t, k); }
    else {
      if a.Insert? && a.t == t { assert Saves(s, t, id); }
      assert Bears(s', Pending(t, id), k);
    }
  }

  lemma {:induction false} QueueOwed(s: State, a: Action, t: Id, k: nat)
    requires Inv(s) && Enabled(s, a) && !Breaks(s, a, t) && ToUndo(s, t, k)
    ensures ToUndo(Apply(s, a), t, k) || Stored(k) !in Apply(s, a).files
  {
    hide AllBacked, OneClaim, QueuesDead, Timely, UsedNames;
    assert t !in s.txs;
    if !((a.Remove? || a.End?) && a.t == t) { assert t in Apply(s, a).jobs && Apply(s, a).jobs[t] == s.jobs[t]; }
  }

  /** Owed files are known files: the key has been drawn. */
  lemma {:induction false} OwedIsUsed(s: State, t: Id, k: nat)
    requires Inv(s) && Owes(s, t, k)
    ensures k in s.used
  {
    if Bears(s, Held(t), k) { assert Backed(s, Held(t), k); }
    else if id :| Bears(s, Pending(t, id), k) { assert Backed(s, Pending(t, id), k); }
    else { assert k in Queue(s.jobs[t]) && Dead(s, k); }
  }

  /** A drawn key without a file has no claim left, since every claim is backed. */
  lemma {:induction false} NoFileNoClaim(s: State, k: nat)
    requires AllBacked(s) && k in s.used && Stored(k) !in s.files
    ensures Gone(s, k)
  {
    forall o ensures !Bears(s, o, k) { assert Bears(s, o, k) ==> Backed(s, o, k); }
  }

  lemma {:induction false} UsedGrows(s: State, a: Action)
    requires Enabled(s, a)
    ensures s.used <= Apply(s, a).used
  {
  }

  lemma {:induction false} StillOwed(s: State, a: Action, t: Id, k: nat)
    requires Inv(s) && Enabled(s, a) && !Breaks(s, a, t) && Owes(s, t, k)
    ensures Owes(Apply(s, a), t, k) || Stored(k) !in Apply(s, a).files
  {
    if Bears(s, Held(t), k) { HeldOwed(s, a, t, k); }
    else if id :| Bears(s, Pending(t, id), k) { PendingOwed(s, a, t, id, k); }
    else { QueueOwed(s, a, t, k); }
  }

  /** Whoever else takes a step, the transaction still owes the file or the file is gone for good. */
  lemma {:induction false} OwedKept(s: State, a: Action, t: Id, k: nat)
    requires Inv(s) && Enabled(s, a) && !Breaks(s, a, t) && (Owes(s, t, k) || Gone(s, k))
    ensures Owes(Apply(s, a), t, k) || Gone(Apply(s, a), k)
  {
    if Gone(s, k) {
      GoneForGood(s, a, k);
    } else {
      OwedIsUsed(s, t, k);
      UsedGrows(s, a);
      StillOwed(s, a, t, k);
      StepKept(s, a);
      if Stored(k) !in Apply(s, a).files { NoFileNoClaim(Apply(s, a), k); }
    }
  }

  // ----- the other files -----

  /** The thread that takes the step; the clock and a crash belong to nobody. */
  function Actor(a: Action): Option<Id> {
    if a.Tick? || a.Crash? then None else Some(a.t)
  }

  /** The thread works in, or cleans up after, a transaction that is not a collection. */
  predicate Ordinary(s: State, t: Id) {
    (t in s.txs ==> s.txs[t].cutoff.None?) && (t in s.jobs ==> s.jobs[t].Undo?)
  }

  predicate SameFile(s: State, s': State, name: Name) {
    (name in s.files <==> name in s'.files) && (name in s.files && name in s'.files ==> s'.files[name] == s.files[name])
  }

  /** A thread other than a collector touches no file but those it owes. */
  lemma {:induction false} OnlyOwnFiles(s: State, a: Action, t: Id, name: Name)
    requires MutexOk(s) && Enabled(s, a) && Actor(a) == Some(t) && Ordinary(s, t) && !SameFile(s, Apply(s, a), name)
    ensures name.Stored? && (Owes(s, t, name.key) || Owes(Apply(s, a), t, name.key))
  {
    if a.Rename? { assert Bears(Apply(s, a), Held(t), a.key); }
    else if a.Fail? { assert Bears(s, Held(t), s.mu.phase.key); }
    else { assert ToUndo(s, t, a.key); }
  }

  lemma {:induction false} OrdinaryKept(s: State, a: Action, t: Id)
    requires Enabled(s, a) && Ordinary(s, t) && !Breaks(s, a, t) && (a.Begin? && a.t == t ==> a.cutoff.None?)
    ensures Ordinary(Apply(s, a), t)
  {
    hide Keys, KeysOf, HasRow, Among;
  }

  lemma {:induction false} RowsOnlyByCommit(s: State, a: Action)
    requires Enabled(s, a) && !a.Commit?
    ensures Apply(s, a).arts == s.arts && Apply(s, a).quota == s.quota
  {
    hide Keys, KeysOf, HasRow, Queue, Among;
  }
}
