/**
  A file transaction that fails on a busy server (`fileTransaction` in internal/content/files.go): whichever
  step failed and whatever everybody else does in between, it has changed no table, and every file it made
  or touched is gone for good when it is done.
*/
module Rollbacks {
  import opened Base
  import opened System
  import opened World
  import opened WorldRuns
  import Disk
  import DiskSafety
  import DiskUndo
  import Rows
  import RowsSafety
  import WorldSafety

  /** The thread that takes the step. */
  function Actor(s: Step): Option<Id> {
    match s
    case OnDisk(a) => DiskUndo.Actor(a)
    case Begin(t, _) => Some(t)
    case Run(t, _) => Some(t)
    case Erase(t, _) => Some(t)
    case Commit(t) => Some(t)
    case Abort(t) => Some(t)
    case Crash => None
    case Alone(_) => None
  }

  /** After this step `t` need not clean up, or cannot: a crash, its commit, or a removal of its own that fails. */
  ghost predicate Excuses(w: World, s: Step, t: Id)
    requires Possible(w, s)
  {
    || (DiskView(s).Some? && Disk.Enabled(w.disk, DiskView(s).value) && DiskUndo.Breaks(w.disk, DiskView(s).value, t))
    || (s.Begin? && s.t == t && s.cutoff.Some?)
  }

  /** A run in which no process crashes, `t` neither commits nor collects, and `t`'s own removals succeed. */
  ghost predicate Rolls(w: World, steps: seq<Step>, t: Id)
    decreases |steps|
  {
    steps != [] && Possible(w, steps[0]) ==> !Excuses(w, steps[0], t) && Rolls(After(w, steps[0]), steps[1..], t)
  }

  /** The transaction has ended and its thread has nothing left to do. */
  predicate Over(w: World, t: Id) {
    t !in w.disk.txs && t !in w.disk.jobs
  }

  ghost predicate Tracked(w: World, t: Id, k: nat) {
    DiskUndo.Owes(w.disk, t, k) || DiskUndo.Gone(w.disk, k)
  }

  lemma {:induction false} TrackedStep(w: World, s: Step, w': World, t: Id, k: nat)
    requires DiskSafety.Inv(w.disk) && Possible(w, s) && w' == After(w, s) && !Excuses(w, s, t) && Tracked(w, t, k)
    ensures Tracked(w', t, k)
  {
    DiskFollows(w, s, w');
    if DiskView(s).Some? { DiskUndo.OwedKept(w.disk, DiskView(s).value, t, k); }
  }

  lemma {:induction false} TrackedRun(w: World, steps: seq<Step>, w': World, t: Id, k: nat)
    requires WorldSafety.Inv(w) && Runs(w, steps, w') && Rolls(w, steps, t) && Tracked(w, t, k)
    ensures Tracked(w', t, k)
    decreases |steps|
  {
    if steps != [] {
      TrackedStep(w, steps[0], After(w, steps[0]), t, k);
      WorldSafety.StepKept(w, steps[0], After(w, steps[0]));
      TrackedRun(After(w, steps[0]), steps[1..], w', t, k);
    }
  }

  lemma {:induction false} GoneRun(w: World, steps: seq<Step>, w': World, k: nat)
    requires Runs(w, steps, w') && DiskUndo.Gone(w.disk, k)
    ensures DiskUndo.Gone(w'.disk, k)
    decreases |steps|
  {
    if steps != [] {
      var w1 := After(w, steps[0]);
      DiskFollows(w, steps[0], w1);
      if DiskView(steps[0]).Some? { DiskUndo.GoneForGood(w.disk, DiskView(steps[0]).value, k); }
      GoneRun(w1, steps[1..], w', k);
    }
  }

  /** A thread that has nothing left to do owes nothing. */
  lemma {:induction false} NothingOwed(w: World, t: Id, k: nat)
    requires DiskSafety.MutexOk(w.disk) && Over(w, t)
    ensures !DiskUndo.Owes(w.disk, t, k)
  {
  }

  lemma {:induction false} TrackedIsGone(
    w: World, steps: seq<Step>, w': World, t: Id, k: nat, more: seq<Step>, w'': World)
    requires WorldSafety.Inv(w) && Runs(w, steps, w') && Rolls(w, steps, t) && Over(w', t) && Runs(w', more, w'')
    requires Tracked(w, t, k)
    ensures DiskUndo.Gone(w''.disk, k)
  {
    TrackedRun(w, steps, w', t, k);
    RunSafe(w, steps, w');
    NothingOwed(w', t, k);
    GoneRun(w', more, w'', k);
  }

  // ----- its own steps -----

  ghost predicate Ordinary(w: World, t: Id) {
    DiskUndo.Ordinary(w.disk, t)
  }

  lemma {:induction false} OrdinaryStep(w: World, s: Step, w': World, t: Id)
    requires Possible(w, s) && w' == After(w, s) && !Excuses(w, s, t) && Ordinary(w, t)
    ensures Ordinary(w', t)
  {
    DiskFollows(w, s, w');
    if DiskView(s).Some? { DiskUndo.OrdinaryKept(w.disk, DiskView(s).value, t); }
  }

  lemma {:induction false} SameArtifacts(w: World, s: Step, w': World)
    requires Possible(w, s) && w' == After(w, s) && !s.Commit?
    ensures w'.disk.arts == w.disk.arts && w'.disk.quota == w.disk.quota
  {
    DiskFollows(w, s, w');
    if DiskView(s).Some? { DiskUndo.RowsOnlyByCommit(w.disk, DiskView(s).value); }
  }

  ghost predicate SameRows(s: Rows.State, s': Rows.State) {
    && s'.problems == s.problems && s'.revs == s.revs && s'.previews == s.previews && s'.assigns == s.assigns
    && s'.parse == s.parse
  }

  lemma {:induction false} QuietRows(w: World, s: Step, w': World)
    requires Possible(w, s) && w' == After(w, s) && !s.Commit? && !s.Alone? && !s.Run?
    ensures SameRows(w.rows, w'.rows) && w'.limits == w.limits && w'.decode == w.decode
  {
  }

  /** Only commits change the committed tables, and the statements that run outside any transaction. */
  lemma {:induction false} OnlyCommitsChangeTables(w: World, s: Step, w': World)
    requires RowsSafety.Inv(w.rows) && Possible(w, s) && w' == After(w, s) && !s.Commit? && !s.Alone?
    ensures SameTables(w, w')
  {
    SameArtifacts(w, s, w');
    if s.Run? { WorldSafety.StmtRowsOnly(w, s.t, s.stmt, w'); } else { QuietRows(w, s, w'); }
  }

  /** What a step of `t` may do: nothing to the tables, and nothing to a file that is not gone in the end. */
  ghost predicate Traceless(w: World, s: Step, w': World, t: Id, end: World) {
    Actor(s) == Some(t) ==>
      && SameTables(w, w')
      && forall name :: DiskUndo.SameFile(w.disk, w'.disk, name) || (name.Stored? && DiskUndo.Gone(end.disk, name.key))
  }

  ghost predicate NoTrace(w: World, steps: seq<Step>, t: Id, end: World)
    decreases |steps|
  {
    steps != [] && Possible(w, steps[0]) ==>
      Traceless(w, steps[0], After(w, steps[0]), t, end) && NoTrace(After(w, steps[0]), steps[1..], t, end)
  }

  /** A file that a step of `t` touches is one that `t` owes before or after it. */
  lemma {:induction false} TouchedIsOwed(w: World, s: Step, w': World, t: Id, name: Disk.Name)
    requires DiskSafety.MutexOk(w.disk) && Possible(w, s) && w' == After(w, s) && Actor(s) == Some(t) && Ordinary(w, t)
    requires !DiskUndo.SameFile(w.disk, w'.disk, name)
    ensures name.Stored? && (DiskUndo.Owes(w.disk, t, name.key) || DiskUndo.Owes(w'.disk, t, name.key))
  {
    DiskFollows(w, s, w');
    DiskUndo.OnlyOwnFiles(w.disk, DiskView(s).value, t, name);
  }

  lemma {:induction false} TouchedIsGone(
    w: World, s: Step, w1: World, steps: seq<Step>, w': World, t: Id, more: seq<Step>, w'': World, name: Disk.Name)
    requires WorldSafety.Inv(w) && Possible(w, s) && w1 == After(w, s) && !Excuses(w, s, t) && Ordinary(w, t)
    requires WorldSafety.Inv(w1) && Runs(w1, steps, w') && Rolls(w1, steps, t) && Over(w', t) && Runs(w', more, w'')
    requires Actor(s) == Some(t) && !DiskUndo.SameFile(w.disk, w1.disk, name)
    ensures name.Stored? && DiskUndo.Gone(w''.disk, name.key)
  {
    TouchedIsOwed(w, s, w1, t, name);
    if DiskUndo.Owes(w.disk, t, name.key) { TrackedStep(w, s, w1, t, name.key); }
    TrackedIsGone(w1, steps, w', t, name.key, more, w'');
  }

  lemma {:induction false} NotItsCommit(w: World, s: Step, t: Id)
    requires Possible(w, s) && !Excuses(w, s, t) && Actor(s) == Some(t)
    ensures !s.Commit? && !s.Alone?
  {
  }

  /**
    From any state, through any interleaving: when a transaction that does not commit is over, none of its own
    steps has changed a table, and every file that one of them made, changed or removed is gone, then and in
    every later state.  It is assumed only that no process crashes meanwhile and that its own removals succeed.
  */
  lemma {:induction false} FailedTransactionLeavesNoTrace(
    w: World, steps: seq<Step>, w': World, t: Id, more: seq<Step>, w'': World)
    requires WorldSafety.Inv(w) && Runs(w, steps, w') && Rolls(w, steps, t) && Ordinary(w, t) && Over(w', t)
    requires Runs(w', more, w'')
    ensures NoTrace(w, steps, t, w'')
    decreases |steps|
  {
    if steps != [] {
      var s, w1 := steps[0], After(w, steps[0]);
      WorldSafety.StepKept(w, s, w1);
      OrdinaryStep(w, s, w1, t);
      if Actor(s) == Some(t) {
        NotItsCommit(w, s, t);
        OnlyCommitsChangeTables(w, s, w1);
        forall name | !DiskUndo.SameFile(w.disk, w1.disk, name) ensures name.Stored? && DiskUndo.Gone(w''.disk, name.key) {
          TouchedIsGone(w, s, w1, steps[1..], w', t, more, w'', name);
        }
      }
      FailedTransactionLeavesNoTrace(w1, steps[1..], w', t, more, w'');
    }
  }

  // ----- every file it renamed -----

  /** Somewhere in the run the transaction gives a file its final name. */
  ghost predicate Renames(w: World, steps: seq<Step>, t: Id, k: nat)
    decreases |steps|
  {
    && steps != [] && Possible(w, steps[0])
    && (steps[0] == OnDisk(Disk.Rename(t, k)) || Renames(After(w, steps[0]), steps[1..], t, k))
  }

  lemma {:induction false} RenamedIsOwed(w: World, t: Id, k: nat, w1: World)
    requires Possible(w, OnDisk(Disk.Rename(t, k))) && w1 == After(w, OnDisk(Disk.Rename(t, k)))
    ensures DiskUndo.Owes(w1.disk, t, k)
  {
    assert DiskSafety.Bears(w1.disk, DiskSafety.Held(t), k);
  }

  /** Every file that it still claims, or has given its final name since, is gone: `DiskUndo.Gone` includes the file. */
  lemma {:induction false} FailedTransactionLeavesNoFile(
    w: World, steps: seq<Step>, w': World, t: Id, k: nat, more: seq<Step>, w'': World)
    requires WorldSafety.Inv(w) && Runs(w, steps, w') && Rolls(w, steps, t) && Over(w', t) && Runs(w', more, w'')
    requires DiskUndo.Owes(w.disk, t, k) || Renames(w, steps, t, k)
    ensures DiskUndo.Gone(w''.disk, k)
    decreases |steps|
  {
    if DiskUndo.Owes(w.disk, t, k) {
      TrackedIsGone(w, steps, w', t, k, more, w'');
    } else {
      var s, w1 := steps[0], After(w, steps[0]);
      WorldSafety.StepKept(w, s, w1);
      if s == OnDisk(Disk.Rename(t, k)) { RenamedIsOwed(w, t, k, w1); }
      FailedTransactionLeavesNoFile(w1, steps[1..], w', t, k, more, w'');
    }
  }

  // ----- and such runs there are -----

  lemma {:induction false} RollsOn(w: World, s: Step, w1: World, rest: seq<Step>, w': World, t: Id)
    requires Possible(w, s) && w1 == After(w, s) && !Excuses(w, s, t) && Runs(w1, rest, w') && Rolls(w1, rest, t)
    ensures Runs(w, [s] + rest, w') && Rolls(w, [s] + rest, t)
  {
    assert ([s] + rest)[1..] == rest;
  }

  lemma {:induction false} GivesUp(w: World, t: Id, k: nat)
    requires t in w.disk.txs && !Disk.Holds(w.disk, t) && Disk.KeysOf(w.disk.txs[t].saved) == {k}
    ensures Possible(w, Abort(t)) && !Excuses(w, Abort(t), t)
    ensures var w1 := After(w, Abort(t));
            t !in w1.disk.txs && t in w1.disk.jobs && w1.disk.jobs[t] == Disk.Undo({k}) && !Disk.Holds(w1.disk, t)
  {
  }

  lemma {:induction false} Removes(w: World, t: Id, k: nat)
    requires t !in w.disk.txs && t in w.disk.jobs && w.disk.jobs[t] == Disk.Undo({k}) && !Disk.Holds(w.disk, t)
    ensures Possible(w, OnDisk(Disk.Remove(t, k, true))) && !Excuses(w, OnDisk(Disk.Remove(t, k, true)), t)
    ensures var w1 := After(w, OnDisk(Disk.Remove(t, k, true)));
            t !in w1.disk.txs && t in w1.disk.jobs && w1.disk.jobs[t] == Disk.Undo({}) && !Disk.Holds(w1.disk, t)
  {
  }

  lemma {:induction false} IsDone(w: World, t: Id)
    requires t !in w.disk.txs && t in w.disk.jobs && w.disk.jobs[t] == Disk.Undo({}) && !Disk.Holds(w.disk, t)
    ensures Possible(w, OnDisk(Disk.End(t))) && !Excuses(w, OnDisk(Disk.End(t)), t) && Over(After(w, OnDisk(Disk.End(t))), t)
  {
  }

  lemma {:induction false} NothingMore(w: World, t: Id)
    ensures Runs(w, [], w) && Rolls(w, [], t)
  {
  }

  /** A transaction that has saved one file and gives up: it can be rolled back, and its file removed. */
  lemma {:induction false} RollbacksHappen(w: World, t: Id, k: nat) returns (w': World)
    requires t in w.disk.txs && !Disk.Holds(w.disk, t) && Disk.KeysOf(w.disk.txs[t].saved) == {k}
    ensures var steps := [Abort(t), OnDisk(Disk.Remove(t, k, true)), OnDisk(Disk.End(t))];
            Runs(w, steps, w') && Rolls(w, steps, t) && Over(w', t)
  {
    hide Possible, After, Excuses, Runs, Rolls, Over, Disk.KeysOf, Disk.Holds;
    var remove, end := OnDisk(Disk.Remove(t, k, true)), OnDisk(Disk.End(t));
    GivesUp(w, t, k);
    var w1 := After(w, Abort(t));
    Removes(w1, t, k);
    var w2 := After(w1, remove);
    IsDone(w2, t);
    w' := After(w2, end);
    NothingMore(w', t);
    RollsOn(w2, end, w', [], w', t);
    RollsOn(w1, remove, w2, [end] + [], w', t);
    RollsOn(w, Abort(t), w1, [remove] + ([end] + []), w', t);
    assert [Abort(t)] + ([remove] + ([end] + [])) == [Abort(t), remove, end];
  }
}
