/**
  What a step waits for, and what it does not: requests are free to interleave, and only the row locks, the storage
  mutex and the checks of the code hold them up.
*/
module Progress {
  import opened Base
  import opened System
  import opened World
  import opened WorldRuns
  import Disk
  import Importer
  import Rows

  /** A thread that is not at work can begin a transaction, whoever else is at work. */
  lemma {:induction false} BeginWaitsForNobody(w: World, t: Id)
    ensures Possible(w, Begin(t, None)) <==> t !in w.disk.txs && t !in w.disk.jobs
  {
  }

  /** A collector can begin with any cutoff that is an hour old. */
  lemma {:induction false} CollectionWaitsForNobody(w: World, t: Id, cutoff: Time)
    ensures Possible(w, Begin(t, Some(cutoff))) <==>
      t !in w.disk.txs && t !in w.disk.jobs && cutoff + 3600 <= w.disk.clock
  {
  }

  /** The transaction has just begun. */
  ghost predicate JustBegun(w: World, t: Id) {
    && t in w.disk.txs && !w.disk.txs[t].failed && t in w.rows.txs && w.rows.txs[t].op.Fresh?
    && !(w.disk.mu.Saving? && w.disk.mu.tid == t) && !(w.disk.mu.Sweeping? && w.disk.mu.tid == t)
  }

  /** The transaction works on the revision: it edits it, imports into it, has published it, or clones from or to it. */
  predicate WorksOn(op: Rows.Op, r: Id) {
    || op == Rows.Editing(r)
    || ((op.Importing? || op.Imported? || op.Closed?) && op.rev == r)
    || (op.Creating? && op.rev == r)
    || (op.Cloning? && (op.from == r || op.to == r))
  }

  /** A draft can be locked exactly when no other open transaction works on it. */
  lemma {:induction false} LockWaitsForItsRow(w: World, t: Id, r: Id)
    requires JustBegun(w, t)
    ensures Possible(w, Run(t, Rows.SLockDraft(r))) <==>
      && r in w.rows.revs && w.rows.revs[r].state.Draft?
      && forall u :: u in w.rows.txs ==> !WorksOn(w.rows.txs[u].op, r)
  {
    forall u | u in w.rows.txs ensures WorksOn(w.rows.txs[u].op, r) <==> Rows.LocksRevision(w.rows.txs[u], r) {}
  }

  /** A file can be staged exactly when the mutex is free, by a transaction that edits a draft and has not failed. */
  lemma {:induction false} SaveWaitsForTheMutex(w: World, t: Id, tmp: nat, bytes: Bytes)
    requires t in w.disk.txs && t in w.rows.txs && (w.rows.txs[t].op.Editing? || w.rows.txs[t].op.Importing?)
    ensures Possible(w, OnDisk(Disk.Stage(t, tmp, bytes))) <==> w.disk.mu.Free? && !w.disk.txs[t].failed && tmp !in w.disk.staging
  {
  }

  /** The process can die at any moment. */
  lemma {:induction false} CrashWaitsForNothing(w: World)
    ensures Possible(w, Crash)
  {
  }

  /** A transaction can be rolled back at any moment at which it is not inside a Save. */
  lemma {:induction false} AbortWaitsForNothing(w: World, t: Id)
    requires t in w.disk.txs
    ensures !(w.disk.mu.Saving? && w.disk.mu.tid == t) && !(w.disk.mu.Sweeping? && w.disk.mu.tid == t) ==> Possible(w, Abort(t))
  {
  }

  /** Time passes: to any moment at which no open transaction is an hour old. */
  lemma {:induction false} TimePasses(w: World, d: nat)
    ensures Possible(w, OnDisk(Disk.Tick(d))) <==> forall t :: t in w.disk.txs ==> w.disk.clock + d < w.disk.txs[t].begun + 3600
    ensures Possible(w, OnDisk(Disk.Tick(d))) ==> After(w, OnDisk(Disk.Tick(d))) == w.(disk := w.disk.(clock := w.disk.clock + d))
  {
  }

  /** A cleaning thread can try to remove any file of its queue, before or after anybody's step, and may fail at it. */
  lemma {:induction false} RemovalWaitsForNobody(w: World, t: Id, key: nat, removed: bool)
    requires t in w.disk.jobs && (w.disk.jobs[t].Undo? || w.disk.jobs[t].Unlink?) && key in w.disk.jobs[t].keys
    ensures Possible(w, OnDisk(Disk.Remove(t, key, removed)))
  {
  }

  /** An orphan can be removed at any moment once it has been found, whatever has been committed since. */
  lemma {:induction false} OrphanWaitsForNobody(w: World, t: Id)
    requires t in w.disk.jobs && w.disk.jobs[t].Orphans? && w.disk.jobs[t].doomed.Some?
    ensures Possible(w, OnDisk(Disk.RemoveOrphan(t)))
  {
  }

  /**
    A transaction commits only as a whole: no Save of its own is under way or has failed, an import has inserted all
    its pairs and set the mark, a clone has copied every test.
  */
  lemma {:induction false} CommitWaitsForTheWhole(w: World, t: Id)
    requires Possible(w, Step.Commit(t))
    ensures t in w.disk.txs && !w.disk.txs[t].failed && !(w.disk.mu.Saving? && w.disk.mu.tid == t)
    ensures t in w.rows.txs && !w.rows.txs[t].op.Importing? && !w.rows.txs[t].op.Numbering?
    ensures w.rows.txs[t].op.Cloning? ==>
      var op := w.rows.txs[t].op;
      op.from in w.rows.revs && forall i :: i in w.rows.revs[op.from].tests ==> exists j :: j in op.copies && op.copies[j] == i
  {
    var op := w.rows.txs[t].op;
    if op.Cloning? {
      forall i | i in w.rows.revs[op.from].tests ensures exists j :: j in op.copies && op.copies[j] == i {
        assert i in op.copies.Values;
      }
    }
  }

  /** And then it can commit at any moment, whatever others do; here one that has only edited a draft. */
  lemma {:induction false} CommitWaitsForNobody(w: World, t: Id)
    requires t in w.rows.txs && (w.rows.txs[t].op.Editing? || w.rows.txs[t].op.Closed? || w.rows.txs[t].op.Imported?)
    ensures Possible(w, Step.Commit(t)) <==>
      && t in w.disk.txs && !w.disk.txs[t].failed
      && !(w.disk.mu.Saving? && w.disk.mu.tid == t) && !(w.disk.mu.Sweeping? && w.disk.mu.tid == t)
  {
  }

  /** A collector deletes only rows that are older than its cutoff and that no revision and no preview that stays needs. */
  lemma {:induction false} DeletionTakesUnneededRows(w: World, t: Id, id: Id)
    requires Possible(w, Erase(t, id))
    ensures t in w.disk.txs && w.disk.txs[t].cutoff.Some? && id in w.disk.arts
    ensures w.disk.arts[id].created < w.disk.txs[t].cutoff.value
    ensures forall r :: r in w.rows.revs ==> w.rows.revs[r].pdf != Some(id)
    ensures forall r, i :: r in w.rows.revs && i in w.rows.revs[r].tests ==>
      w.rows.revs[r].tests[i].input != id && w.rows.revs[r].tests[i].output != id
    ensures forall p :: p in w.rows.previews && w.rows.previews[p].artifact == id ==> t in w.rows.txs && p in w.rows.txs[t].expired
  {
    forall r | r in w.rows.revs ensures w.rows.revs[r].pdf != Some(id) { assert !Refers(w, Revision(r), id); }
    forall r, i | r in w.rows.revs && i in w.rows.revs[r].tests
      ensures w.rows.revs[r].tests[i].input != id && w.rows.revs[r].tests[i].output != id
    {
      assert !Refers(w, Revision(r), id) && !UsesRow(w.rows.revs[r].tests[i], id);
    }
    forall p | p in w.rows.previews && w.rows.previews[p].artifact == id ensures t in w.rows.txs && p in w.rows.txs[t].expired {
      assert Refers(w, Archive(p), id);
    }
  }

  /** An import begins with an instant read off the clock since its transaction began, before the expiry of its preview. */
  lemma {:induction false} ImportReadsTheClock(
    w: World, t: Id, p: Id, owner: Id, now: Time, base: int, pairs: seq<Importer.TestPair>)
    requires Possible(w, Run(t, Rows.SStartImport(p, owner, now, base, pairs)))
    ensures t in w.disk.txs && w.disk.txs[t].begun <= now <= w.disk.clock
    ensures p in w.rows.previews && now < w.rows.previews[p].expires && w.rows.previews[p].committed.None?
    ensures w.rows.previews[p].owner == owner
  {
  }

  // ----- two requests at once -----

  /** Both transactions are open, each with its own draft locked. */
  ghost predicate BothEditing(w: World, t: Id, r: Id, u: Id, q: Id) {
    && t in w.disk.txs && u in w.disk.txs && t in w.rows.txs && u in w.rows.txs
    && w.rows.txs[t].op == Rows.Editing(r) && w.rows.txs[u].op == Rows.Editing(q)
  }

  /** The first has begun, and then the second. */
  lemma {:induction false} BothBegin(w: World, t: Id, u: Id) returns (w1: World, w2: World)
    requires Idle(w) && t != u
    ensures Possible(w, Begin(t, None)) && w1 == After(w, Begin(t, None))
    ensures Possible(w1, Begin(u, None)) && w2 == After(w1, Begin(u, None))
    ensures JustBegun(w2, t) && JustBegun(w2, u) && w2.rows.revs == w.rows.revs && w2.rows.txs.Keys == {t, u}
  {
    w1 := After(w, Begin(t, None));
    BeginWaitsForNobody(w1, u);
    w2 := After(w1, Begin(u, None));
  }

  /** The first has locked its draft. */
  lemma {:induction false} FirstLocks(w2: World, t: Id, r: Id, u: Id) returns (w3: World)
    requires JustBegun(w2, t) && JustBegun(w2, u) && t != u && w2.rows.txs.Keys == {t, u}
    requires r in w2.rows.revs && w2.rows.revs[r].state.Draft?
    ensures Possible(w2, Run(t, Rows.SLockDraft(r))) && w3 == After(w2, Run(t, Rows.SLockDraft(r)))
    ensures JustBegun(w3, u) && t in w3.disk.txs && t in w3.rows.txs && w3.rows.txs[t].op == Rows.Editing(r)
    ensures w3.rows.revs == w2.rows.revs && w3.rows.txs.Keys == {t, u}
  {
    LockWaitsForItsRow(w2, t, r);
    w3 := After(w2, Run(t, Rows.SLockDraft(r)));
  }

  /** And then the second its own. */
  lemma {:induction false} SecondLocks(w3: World, t: Id, r: Id, u: Id, q: Id) returns (w': World)
    requires JustBegun(w3, u) && t != u && r != q && w3.rows.txs.Keys == {t, u}
    requires t in w3.disk.txs && w3.rows.txs[t].op == Rows.Editing(r) && q in w3.rows.revs && w3.rows.revs[q].state.Draft?
    ensures Possible(w3, Run(u, Rows.SLockDraft(q))) && w' == After(w3, Run(u, Rows.SLockDraft(q)))
    ensures BothEditing(w', t, r, u, q)
  {
    LockWaitsForItsRow(w3, u, q);
    w' := After(w3, Run(u, Rows.SLockDraft(q)));
  }

  /** From an idle system two requests can edit two drafts at once. */
  lemma {:induction false} TwoAtOnce(w: World, t: Id, r: Id, u: Id, q: Id) returns (w': World)
    requires Idle(w) && t != u && r != q
    requires r in w.rows.revs && w.rows.revs[r].state.Draft? && q in w.rows.revs && w.rows.revs[q].state.Draft?
    ensures Runs(w, [Begin(t, None), Begin(u, None), Run(t, Rows.SLockDraft(r)), Run(u, Rows.SLockDraft(q))], w')
    ensures BothEditing(w', t, r, u, q)
  {
    hide Runs, Idle, Possible, After, JustBegun, BothEditing;
    var first, lock := Run(t, Rows.SLockDraft(r)), Run(u, Rows.SLockDraft(q));
    var w1, w2 := BothBegin(w, t, u);
    var w3 := FirstLocks(w2, t, r, u);
    w' := SecondLocks(w3, t, r, u, q);
    NoMoreSteps(w');
    RunsOn(w3, lock, w', [], w');
    RunsOn(w2, first, w3, [lock] + [], w');
    RunsOn(w1, Begin(u, None), w2, [first] + ([lock] + []), w');
    RunsOn(w, Begin(t, None), w1, [Begin(u, None)] + ([first] + ([lock] + [])), w');
    assert [Begin(t, None)] + ([Begin(u, None)] + ([first] + ([lock] + []))) == [Begin(t, None), Begin(u, None), first, lock];
  }

  lemma {:induction false} NoMoreSteps(w: World)
    ensures Runs(w, [], w)
  {
  }

  // ----- what publication does not freeze -----

  /** An assignment can be taken back at any time. */
  lemma {:induction false} AssignmentsCanBeTakenBack(w: World, a: Id)
    requires a in w.rows.assigns
    ensures Possible(w, Alone(Rows.Unassign(a)))
    ensures var w' := After(w, Alone(Rows.Unassign(a)));
            w'.rows.assigns == w.rows.assigns - {a} && w'.rows.revs == w.rows.revs && w'.disk == w.disk
  {
  }

  /** It can be moved to any free position of its series, and keeps the rest. */
  lemma {:induction false} AssignmentsCanBeMoved(w: World, a: Id, position: int)
    requires a in w.rows.assigns
    ensures Possible(w, Alone(Rows.Move(a, position))) <==>
      && position >= 0
      && forall b :: b in w.rows.assigns && b != a && w.rows.assigns[b].series == w.rows.assigns[a].series ==>
           w.rows.assigns[b].position != position
    ensures Possible(w, Alone(Rows.Move(a, position))) ==>
      After(w, Alone(Rows.Move(a, position))).rows.assigns == w.rows.assigns[a := w.rows.assigns[a].(position := position)]
  {
  }

  /** The title and the code of a problem can be edited at any time, published revisions or not, if the code is free. */
  lemma {:induction false} TitleStaysEditable(w: World, p: Id, title: string, code: string)
    requires w.rows.txs == map[] && p in w.rows.problems
    ensures Possible(w, Alone(Rows.EditProblem(p, title, code))) <==>
      title != "" && code != "" && forall q :: q in w.rows.problems && q != p ==> w.rows.problems[q].code != code
    ensures Possible(w, Alone(Rows.EditProblem(p, title, code))) ==>
      var w' := After(w, Alone(Rows.EditProblem(p, title, code)));
      && w'.rows.problems == w.rows.problems[p := w.rows.problems[p].(title := title, code := code)]
      && w'.rows.revs == w.rows.revs && w'.disk == w.disk
  {
  }
}
