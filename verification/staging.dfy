/**
  The staging files (`.upload-*` in internal/artifact/store.go), which the quota does not count: without crashes
  there is at most the one being written; with crashes there is no bound on them until a collection.
*/
module Staging {
  import opened Base
  import opened System
  import opened World
  import opened WorldRuns
  import Disk
  import DiskBounds
  import Files
  import Rows

  // ----- without crashes -----

  /** The staging files are that of the Save that holds the mutex and has not renamed it yet. */
  ghost predicate OnlyTheHolders(s: Disk.State) {
    s.staging.Keys == if s.mu.Saving? && !s.mu.phase.Renamed? then {s.mu.tmp} else {}
  }

  /** The steps of a Save, and those of the collector on staging files. */
  predicate Handles(a: Disk.Action) {
    || a.Stage? || a.List? || a.Scan? || a.Rename? || a.Insert? || a.Fail?
    || a.SweepLock? || a.DropStaging? || a.SweepUnlock?
  }

  lemma {:induction false} OthersLeaveStaging(s: Disk.State, a: Disk.Action)
    requires Disk.Enabled(s, a) && !a.Crash? && !Handles(a)
    ensures Disk.Apply(s, a).staging == s.staging && Disk.Apply(s, a).mu == s.mu
  {
    hide Disk.Keys, Disk.KeysOf, Disk.HasRow, Disk.Among, Disk.Queue;
  }

  lemma {:induction false} SaveHolds(s: Disk.State, a: Disk.Action)
    requires OnlyTheHolders(s) && Disk.Enabled(s, a) && Handles(a)
    ensures OnlyTheHolders(Disk.Apply(s, a))
  {
    hide Disk.Keys, Disk.KeysOf, Disk.HasRow, Disk.Among, Disk.Queue;
  }

  lemma {:induction false} HoldersKept(s: Disk.State, a: Disk.Action)
    requires OnlyTheHolders(s) && Disk.Enabled(s, a) && !a.Crash?
    ensures OnlyTheHolders(Disk.Apply(s, a))
  {
    hide Disk.Enabled, Disk.Apply;
    if Handles(a) { SaveHolds(s, a); } else { OthersLeaveStaging(s, a); }
  }

  ghost predicate NoCrash(steps: seq<Step>) {
    forall i :: 0 <= i < |steps| ==> !steps[i].Crash?
  }

  /** A run without crashes never has more than the staging file of the Save that holds the mutex. */
  lemma {:induction false} OneStagingFile(w: World, steps: seq<Step>, w': World)
    requires OnlyTheHolders(w.disk) && Runs(w, steps, w') && NoCrash(steps)
    ensures OnlyTheHolders(w'.disk) && |w'.disk.staging.Keys| <= 1
    decreases |steps|
  {
    if steps != [] {
      var w1 := After(w, steps[0]);
      DiskFollows(w, steps[0], w1);
      if DiskView(steps[0]).Some? { HoldersKept(w.disk, DiskView(steps[0]).value); }
      OneStagingFile(w1, steps[1..], w');
    }
  }

  // ----- with crashes -----

  /** A request that has locked the draft and staged one byte when the process dies. */
  function Round(t: Id, r: Id, tmp: nat): seq<Step> {
    [Begin(t, None), Run(t, Rows.SLockDraft(r)), OnDisk(Disk.Stage(t, tmp, [0])), Crash]
  }

  /** Nobody is at work, and the revision is a draft. */
  ghost predicate Ready(w: World, r: Id) {
    Idle(w) && r in w.rows.revs && w.rows.revs[r].state.Draft?
  }

  /** The world when the request has locked the draft and staged its file. */
  function Staged(w: World, t: Id, r: Id, tmp: nat): World {
    var l := Files.Locked(w, t, r);
    l.(disk := l.disk.(staging := l.disk.staging[tmp := Disk.File([0], l.disk.clock)], mu := Disk.Saving(t, tmp, [0], Disk.Staged)))
  }

  lemma {:induction false} Locks(s: Rows.State, t: Id, r: Id)
    requires s.txs == map[] && r in s.revs && s.revs[r].state.Draft?
    ensures Rows.LockDraft(Rows.Begin(s, t), t, r)
         == Some(s.(txs := map[t := Rows.Tx(Rows.Editing(r), map[], map[], map[], {})]))
  {
    var s1 := Rows.Begin(s, t);
    assert s1.txs[t := Rows.Tx(Rows.Editing(r), map[], map[], map[], {})] == map[t := Rows.Tx(Rows.Editing(r), map[], map[], map[], {})];
  }

  lemma {:induction false} Opens(w: World, t: Id, r: Id)
    requires Ready(w, r)
    ensures Possible(w, Begin(t, None))
    ensures var w1 := After(w, Begin(t, None));
            Possible(w1, Run(t, Rows.SLockDraft(r))) && After(w1, Run(t, Rows.SLockDraft(r))) == Files.Locked(w, t, r)
  {
    Locks(w.rows, t, r);
  }

  lemma {:induction false} Stages(w: World, t: Id, r: Id, tmp: nat)
    requires Ready(w, r) && tmp !in w.disk.staging
    ensures var l, stage := Files.Locked(w, t, r), OnDisk(Disk.Stage(t, tmp, [0]));
            Possible(l, stage) && After(l, stage) == Staged(w, t, r, tmp)
  {
  }

  lemma {:induction false} Dies(w: World, t: Id, r: Id, tmp: nat)
    requires Ready(w, r)
    ensures var w' := After(Staged(w, t, r, tmp), Crash);
            Ready(w', r) && w'.disk.staging == w.disk.staging[tmp := Disk.File([0], w.disk.clock)] && w'.disk.quota == w.disk.quota
  {
  }

  /** The round can be run, and leaves its staging file. */
  lemma {:induction false} RoundRuns(w: World, t: Id, r: Id, tmp: nat, rest: seq<Step>, w': World)
    requires Ready(w, r) && tmp !in w.disk.staging && Runs(After(Staged(w, t, r, tmp), Crash), rest, w')
    ensures Runs(w, Round(t, r, tmp) + rest, w')
  {
    hide Possible, After, Runs, Ready, Files.Locked, Staged;
    var lock, stage := Run(t, Rows.SLockDraft(r)), OnDisk(Disk.Stage(t, tmp, [0]));
    Opens(w, t, r);
    Stages(w, t, r, tmp);
    CrashPossible(Staged(w, t, r, tmp));
    RunsOn(Staged(w, t, r, tmp), Crash, After(Staged(w, t, r, tmp), Crash), rest, w');
    RunsOn(Files.Locked(w, t, r), stage, Staged(w, t, r, tmp), [Crash] + rest, w');
    RunsOn(After(w, Begin(t, None)), lock, Files.Locked(w, t, r), [stage] + ([Crash] + rest), w');
    RunsOn(w, Begin(t, None), After(w, Begin(t, None)), [lock] + ([stage] + ([Crash] + rest)), w');
    assert [Begin(t, None)] + ([lock] + ([stage] + ([Crash] + rest))) == Round(t, r, tmp) + rest;
  }

  lemma {:induction false} CrashPossible(w: World)
    ensures Possible(w, Crash)
  {
  }

  lemma {:induction false} OneByteMore(staging: map<nat, Disk.File>, tmp: nat, f: Disk.File)
    requires tmp !in staging && |f.bytes| == 1
    ensures DiskBounds.Total(staging[tmp := f]) == DiskBounds.Total(staging) + 1
  {
    DiskBounds.TotalRemove(staging[tmp := f], tmp);
    assert staging[tmp := f] - {tmp} == staging;
  }

  lemma {:induction false} Above(names: set<nat>) returns (top: nat)
    ensures forall x :: x in names ==> x < top
    decreases names
  {
    top := 0;
    if x :| x in names {
      top := Above(names - {x});
      assert forall y :: y in names ==> y == x || y in names - {x};
      if top <= x { top := x + 1; }
    }
  }

  /**
    Whatever the quota, the staging files can grow by any number of bytes: from any world with a draft in which
    nobody is at work, requests that die between staging and renaming leave theirs behind.
  */
  lemma {:induction false} StagingPilesUp(w: World, t: Id, r: Id, n: nat) returns (steps: seq<Step>, w': World)
    requires Ready(w, r)
    ensures Runs(w, steps, w') && Ready(w', r) && w'.disk.quota == w.disk.quota
    ensures DiskBounds.Total(w'.disk.staging) == DiskBounds.Total(w.disk.staging) + n
    decreases n
  {
    hide Possible, After, Ready, Files.Locked, Staged;
    if n == 0 {
      steps, w' := [], w;
    } else {
      var tmp := Above(w.disk.staging.Keys);
      CrashPossible(Staged(w, t, r, tmp));
      Dies(w, t, r, tmp);
      var w1 := After(Staged(w, t, r, tmp), Crash);
      OneByteMore(w.disk.staging, tmp, Disk.File([0], w.disk.clock));
      steps, w' := StagingPilesUp(w1, t, r, n - 1);
      RoundRuns(w, t, r, tmp, steps, w');
      steps := Round(t, r, tmp) + steps;
    }
  }

  /** In particular beyond the quota. */
  lemma {:induction false} StagingExceedsTheQuota(w: World, r: Id)
    requires Ready(w, r)
    ensures exists steps: seq<Step>, w': World :: Runs(w, steps, w') && DiskBounds.Total(w'.disk.staging) > w'.disk.quota
  {
    var steps, w' := StagingPilesUp(w, 0, r, w.disk.quota + 1);
    assert Runs(w, steps, w');
  }
}
