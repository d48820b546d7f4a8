/**
  A running system: the service's operations change its state by the steps of the interleaving
  model and by nothing else, so whatever is proved of runs holds of them.
*/
module System {
  import opened Base
  import opened World
  import opened WorldSafety
  import Disk
  import Importer
  import Imports
  import Rows

  /** A system that has just been set up, with no quota, no readable archive and no valid metadata. */
  const EMPTY: World := World(
    Disk.State(0, 0, map[], 0, map[], map[], {}, Disk.Free, map[], map[], {}),
    Rows.State((text: string) => None, 0, map[], map[], map[], map[], map[], map[]),
    Importer.Limits(0, 0), (raw: Bytes) => None)

  /** The worlds in which the foreign keys, the files and the constraints are in order. */
  type Sound = w: World | Imports.Good(w)
    witness (Imports.FreshIsGood(EMPTY); EMPTY)

  /** Nobody is at work. */
  ghost predicate Idle(w: World) {
    && w.disk.txs == map[] && w.disk.jobs == map[] && w.disk.mu.Free? && w.rows.txs == map[]
  }

  /** Only the transaction `t` is open, and it is not inside a Save. */
  ghost predicate Working(w: World, t: Id) {
    && w.disk.txs.Keys == {t} && w.rows.txs.Keys == {t} && w.disk.jobs == map[] && w.disk.mu.Free?
  }

  /** The transaction has ended and its thread still has files to remove. */
  ghost predicate Cleaning(w: World, t: Id) {
    && w.disk.txs == map[] && w.rows.txs == map[] && w.disk.jobs.Keys == {t} && w.disk.mu.Free?
  }

  /** The same installation: its parser, its archive reader, its limits and its quota. */
  ghost predicate SameSetup(w: World, w': World) {
    w'.rows.parse == w.rows.parse && w'.limits == w.limits && w'.decode == w.decode && w'.disk.quota == w.disk.quota
  }

  /** The committed tables are the same. */
  ghost predicate SameTables(w: World, w': World) {
    && w'.rows.problems == w.rows.problems && w'.rows.revs == w.rows.revs && w'.rows.previews == w.rows.previews
    && w'.rows.assigns == w.rows.assigns && w'.disk.arts == w.disk.arts && SameSetup(w, w')
  }

  /** Nothing has happened: the tables are the same, and so are the files unless one could not be removed. */
  ghost predicate Unchanged(w: World, w': World) {
    && SameTables(w, w') && w'.disk.staging == w.disk.staging
    && (w'.disk.stray == w.disk.stray ==> w'.disk.files == w.disk.files)
  }

  class Server {
    var w: Sound

    constructor (w: Sound)
      ensures this.w == w
    {
      hide Imports.Good;
      this.w := w;
    }

    method Do(s: Step)
      requires Possible(w, s)
      modifies this
      ensures w == After(old(w), s)
    {
      Imports.GoodStep(w, s, After(w, s));
      w := After(w, s);
    }

    /** A file-system call, or a statement on the artifact table. */
    method OnStore(a: Disk.Action)
      requires OwnStep(a) && Disk.Enabled(w.disk, a)
      requires a.Stage? ==> a.t in w.rows.txs && SavesFiles(w.rows.txs[a.t].op)
      modifies this
      ensures w == old(w).(disk := Disk.Apply(old(w).disk, a))
    {
      hide Imports.Good;
      Do(OnDisk(a));
    }

    method Open(t: Id, cutoff: Option<Time>)
      requires Idle(w) && (cutoff.Some? ==> cutoff.value <= w.disk.clock - HOUR)
      modifies this
      ensures Working(w, t) && SameTables(old(w), w) && w.disk.files == old(w).disk.files && w.disk.staging == old(w).disk.staging
      ensures w.disk == old(w).disk.(txs := map[t := Disk.Tx(old(w).disk.clock, map[], {}, cutoff, false)])
      ensures w.rows == Rows.Begin(old(w).rows, t)
    {
      hide Imports.Good;
      Do(Begin(t, cutoff));
    }

    /** A statement on the other tables; it may find that its row is not there or not in the right state. */
    method Exec(t: Id, stmt: Rows.Stmt) returns (ok: bool)
      requires Working(w, t) && !w.disk.txs[t].failed && Warranted(w, t, stmt)
      modifies this
      ensures ok <==> Rows.Exec(old(w).rows, t, stmt).Some?
      ensures ok ==> w == old(w).(rows := Rows.Exec(old(w).rows, t, stmt).value) && Working(w, t) && RowsOnly(old(w), t, w)
      ensures !ok ==> w == old(w)
    {
      ok := Rows.Exec(w.rows, t, stmt).Some?;
      if ok {
        RanAlone(w, t, stmt);
        Do(Run(t, stmt));
      }
    }

    method End(t: Id)
      requires Working(w, t) && !w.disk.txs[t].failed && Rows.CanCommit(w.rows, t)
      modifies this
      ensures w == old(w).(disk := Disk.Apply(old(w).disk, Disk.Commit(t)), rows := Rows.Commit(old(w).rows, t))
      ensures if old(w).disk.txs[t].cutoff.None? then Idle(w) else Cleaning(w, t)
    {
      hide Imports.Good;
      Do(Commit(t));
    }
  }

  lemma {:induction false} RanAlone(w: World, t: Id, stmt: Rows.Stmt)
    requires Imports.Good(w) && Working(w, t) && Rows.Exec(w.rows, t, stmt).Some?
    ensures Rows.Exec(w.rows, t, stmt).value.txs.Keys == {t}
    ensures RowsOnly(w, t, w.(rows := Rows.Exec(w.rows, t, stmt).value))
  {
    StmtRowsOnly(w, t, stmt, w.(rows := Rows.Exec(w.rows, t, stmt).value));
  }
}
