/**
  The two stores together: an artifact is a row of one and a file of the other, and revisions,
  tests and import previews refer to artifacts.  A transaction is open in both at once; its
  statements, its saves and everybody else's steps interleave freely.
*/
module World {
  import opened Base
  import Disk
  import Importer
  import Rows

  datatype World = World(disk: Disk.State, rows: Rows.State, limits: Importer.Limits, decode: Importer.Decoder)

  datatype Step =
    | OnDisk(act: Disk.Action)
    | Begin(t: Id, cutoff: Option<Time>)
    | Run(t: Id, stmt: Rows.Stmt)
    | Erase(t: Id, id: Id)
    | Commit(t: Id)
    | Abort(t: Id)
    | Crash
    | Alone(single: Rows.Single)

  // ----- references -----

  /** A row that refers to artifacts: a committed revision or preview, or a pending version of one. */
  datatype Holder =
    | Revision(r: Id)
    | Archive(p: Id)
    | PendingRevision(t: Id, r: Id)
    | PendingArchive(t: Id, p: Id)

  predicate UsesRow(row: Rows.TestCase, id: Id) {
    row.input == id || row.output == id
  }

  predicate Uses(doc: Rows.Revision, id: Id) {
    doc.pdf == Some(id) || exists i :: i in doc.tests && UsesRow(doc.tests[i], id)
  }

  ghost predicate Refers(w: World, h: Holder, id: Id) {
    match h
    case Revision(r) => r in w.rows.revs && Uses(w.rows.revs[r], id)
    case Archive(p) => p in w.rows.previews && w.rows.previews[p].artifact == id
    case PendingRevision(t, r) => t in w.rows.txs && r in w.rows.txs[t].revs && Uses(w.rows.txs[t].revs[r], id)
    case PendingArchive(t, p) => t in w.rows.txs && p in w.rows.txs[t].previews && w.rows.txs[t].previews[p].artifact == id
  }

  predicate Saved(w: World, t: Id, id: Id) {
    t in w.disk.txs && id in w.disk.txs[t].saved
  }

  predicate Doomed(w: World, t: Id, id: Id) {
    t in w.disk.txs && id in w.disk.txs[t].deleted
  }

  /** The collector deletes the outdated previews together with their archives. */
  predicate Excused(w: World, t: Id, h: Holder) {
    h.Archive? && t in w.rows.txs && h.p in w.rows.txs[t].expired
  }

  /** A foreign key that may be written now: the row is there for this transaction, and nobody is deleting it. */
  predicate Linkable(w: World, t: Id, id: Id) {
    (id in w.disk.arts || Saved(w, t, id)) && forall u :: u in w.disk.txs ==> !Doomed(w, u, id)
  }

  function Content(w: World, t: Id, id: Id): Bytes
    requires id in w.disk.arts || Saved(w, t, id)
  {
    if id in w.disk.arts then w.disk.arts[id].digest else w.disk.txs[t].saved[id].digest
  }

  // ----- the statements as the service issues them -----

  /** What the importer reads from the archive of a preview. */
  ghost predicate ReadsArchive(w: World, p: Id, pairs: seq<Importer.TestPair>) {
    && p in w.rows.previews && w.rows.previews[p].artifact in w.disk.arts
    && var name := Disk.Stored(w.disk.arts[w.rows.previews[p].artifact].key);
       name in w.disk.files && Reads(w, w.disk.files[name].bytes, pairs)
  }

  ghost predicate Reads(w: World, raw: Bytes, pairs: seq<Importer.TestPair>) {
    && Importer.Readable(raw, w.limits, w.decode)
    && Importer.IsPairing(Importer.Items(w.decode(raw).value), pairs)
  }

  /** The foreign keys a statement writes, and what the service has checked or saved before it. */
  ghost predicate Warranted(w: World, t: Id, stmt: Rows.Stmt) {
    match stmt
    case SPutTest(_, row) => Linkable(w, t, row.input) && Linkable(w, t, row.output)
    case SPutRevision(_, pdf) => pdf.Some? ==> Linkable(w, t, pdf.value)
    case SPutPdf(id) => Linkable(w, t, id)
    case SAddPreview(_, id, _) => Linkable(w, t, id) && Importer.Readable(Content(w, t, id), w.limits, w.decode)
    case SStartImport(p, _, now, _, pairs) => TakenSince(w, t, now) && ReadsArchive(w, p, pairs)
    case SImportPair(input, output) => ImportsNext(w, t, input, output)
    case SExpire(cutoff) => t in w.disk.txs && w.disk.txs[t].cutoff == Some(cutoff)
    case _ => true
  }

  /** An instant read off the clock by an open transaction. */
  predicate TakenSince(w: World, t: Id, now: Time) {
    t in w.disk.txs && w.disk.txs[t].begun <= now <= w.disk.clock
  }

  ghost predicate ImportsNext(w: World, t: Id, input: Id, output: Id) {
    && t in w.rows.txs && w.rows.txs[t].op.Importing?
    && Saved(w, t, input) && Saved(w, t, output)
    && var op := w.rows.txs[t].op;
       |op.ids| < |op.pairs| && Holds(w, t, input, output, op.pairs[|op.ids|])
  }

  ghost predicate Holds(w: World, t: Id, input: Id, output: Id, pair: Importer.TestPair)
    requires Saved(w, t, input) && Saved(w, t, output)
  {
    w.disk.txs[t].saved[input].digest == pair.input && w.disk.txs[t].saved[output].digest == pair.output
  }

  predicate SavesFiles(op: Rows.Op) {
    op.Editing? || op.Importing?
  }

  predicate OwnStep(a: Disk.Action) {
    !a.Crash? && !a.Begin? && !a.Delete? && !a.Commit? && !a.Abort?
  }

  ghost predicate Possible(w: World, s: Step) {
    match s
    case OnDisk(a) =>
      && OwnStep(a) && Disk.Enabled(w.disk, a)
      && (a.Stage? ==> a.t in w.rows.txs && SavesFiles(w.rows.txs[a.t].op))
    case Begin(t, cutoff) => Disk.Enabled(w.disk, Disk.Begin(t, cutoff))
    case Run(t, stmt) =>
      && t in w.disk.txs && !w.disk.txs[t].failed && !Disk.Holds(w.disk, t)
      && Warranted(w, t, stmt) && Rows.Exec(w.rows, t, stmt).Some?
    case Erase(t, id) =>
      && Disk.Enabled(w.disk, Disk.Delete(t, id)) && t in w.rows.txs && w.rows.txs[t].op.Expiring?
      && forall h :: Refers(w, h, id) ==> Excused(w, t, h)
    case Commit(t) => Disk.Enabled(w.disk, Disk.Commit(t)) && Rows.CanCommit(w.rows, t)
    case Abort(t) => Disk.Enabled(w.disk, Disk.Abort(t))
    case Crash => true
    case Alone(a) => Rows.SingleEnabled(w.rows, a)
  }

  function After(w: World, s: Step): World
    requires Possible(w, s)
  {
    match s
    case OnDisk(a) => w.(disk := Disk.Apply(w.disk, a))
    case Begin(t, cutoff) => w.(disk := Disk.Apply(w.disk, Disk.Begin(t, cutoff)), rows := Rows.Begin(w.rows, t))
    case Run(t, stmt) => w.(rows := Rows.Exec(w.rows, t, stmt).value)
    case Erase(t, id) => w.(disk := Disk.Apply(w.disk, Disk.Delete(t, id)))
    case Commit(t) => w.(disk := Disk.Apply(w.disk, Disk.Commit(t)), rows := Rows.Commit(w.rows, t))
    case Abort(t) => w.(disk := Disk.Apply(w.disk, Disk.Abort(t)), rows := Rows.Abort(w.rows, t))
    case Crash => w.(disk := Disk.Apply(w.disk, Disk.Crash), rows := Rows.Crash(w.rows))
    case Alone(a) => w.(rows := Rows.SingleApply(w.rows, a))
  }
}
