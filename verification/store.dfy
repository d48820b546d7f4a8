/** Saving one file (`Save` in internal/artifact/store.go): stage, check the quota, rename, insert the row. */
module Store {
  import opened Base
  import opened World
  import opened System
  import Disk
  import DiskBounds
  import Imports
  import Validation

  datatype Error = Rejected | TooLarge | Quota | Storage

  /** A name nobody has drawn before, as random names are. */
  method Draw(used: set<nat>) returns (k: nat)
    ensures k !in used
  {
    k := *;
    if k in used {
      k := 0;
      var left := used;
      while left != {}
        invariant left <= used && forall x :: x in used && x !in left ==> x < k
        decreases left
      {
        var x :| x in left;
        left := left - {x};
        if x >= k { k := x + 1; }
      }
    }
  }

  /** The row is pending and the file is there; nothing else is different. */
  ghost predicate SavedOne(w: World, w': World, t: Id, owner: Id, key: nat, bytes: Bytes)
    requires t in w.disk.txs
  {
    var d, x := w.disk, w.disk.txs[t];
    && key !in d.used && key !in d.stray && Disk.Stored(key) !in d.files
    && w' == w.(disk := d.(
         files := d.files[Disk.Stored(key) := Disk.File(bytes, d.clock)], used := d.used + {key}, next := d.next + 1,
         txs := d.txs[t := x.(saved := x.saved[d.next := Disk.Artifact(owner, key, bytes, |bytes|, d.clock)])]))
  }

  /** The transaction can only be rolled back; nothing else is different, but for a file that would not go away. */
  ghost predicate SaveFailed(w: World, w': World, t: Id)
    requires t in w.disk.txs
  {
    var d, d' := w.disk, w'.disk;
    && w' == w.(disk := d.(used := d'.used, stray := d'.stray, files := d'.files, txs := d.txs[t := d.txs[t].(failed := true)]))
    && d.used <= d'.used && d.stray <= d'.stray
    && (d'.stray == d.stray ==> d'.files == d.files)
    && (forall k :: k in d'.stray && k !in d.stray ==> Disk.Stored(k) !in d.files)
    && (forall name :: name in d.files ==> name in d'.files && d'.files[name] == d.files[name])
  }

  /** The directory read entry by entry; with nobody else about, the sum is what is there. */
  method Measure(sys: Server, t: Id) returns (used: nat)
    requires sys.w.disk.mu.Saving? && sys.w.disk.mu.tid == t && sys.w.disk.mu.phase.Staged? && sys.w.disk.quota > 0
    modifies sys
    ensures used == DiskBounds.Total(old(sys.w).disk.files)
    ensures sys.w == old(sys.w).(disk := old(sys.w).disk.(mu := old(sys.w).disk.mu.(phase := Disk.Scanning({}, used))))
  {
    hide Imports.Good;
    ghost var w0 := sys.w;
    sys.OnStore(Disk.List(t));
    assert DiskBounds.Listed(w0.disk.files, w0.disk.files.Keys) == w0.disk.files;
    while sys.w.disk.mu.phase.left != {}
      invariant sys.w.disk.mu.Saving? && sys.w.disk.mu.phase.Scanning?
      invariant sys.w == w0.(disk := w0.disk.(mu := w0.disk.mu.(phase := sys.w.disk.mu.phase)))
      invariant sys.w.disk.mu.phase.left <= w0.disk.files.Keys
      invariant DiskBounds.Total(w0.disk.files)
             == sys.w.disk.mu.phase.used + DiskBounds.Total(DiskBounds.Listed(w0.disk.files, sys.w.disk.mu.phase.left))
      decreases sys.w.disk.mu.phase.left
    {
      var left := sys.w.disk.mu.phase.left;
      var name :| name in left;
      DiskBounds.TotalRemove(DiskBounds.Listed(w0.disk.files, left), name);
      assert DiskBounds.Listed(w0.disk.files, left) - {name} == DiskBounds.Listed(w0.disk.files, left - {name});
      sys.OnStore(Disk.Scan(t, name));
    }
    used := sys.w.disk.mu.phase.used;
    assert DiskBounds.Listed(w0.disk.files, {}) == map[];
  }

  /** A file may be stored for this owner at all. */
  predicate Accepts(owner: Id, maxBytes: int) {
    owner != 0 && maxBytes > 0
  }

  predicate Acceptable(owner: Id, filename: string, maxBytes: int) {
    Accepts(owner, maxBytes) && Validation.TrimSpace(filename) != ""
  }

  /** So many more bytes are within the quota. */
  ghost predicate HasRoom(w: World, bytes: nat) {
    w.disk.quota > 0 ==> bytes + DiskBounds.Total(w.disk.files) <= w.disk.quota
  }

  /** The world inside a Save that has staged its file and, if there is a quota, measured the directory. */
  function Inside(w: World, t: Id, tmp: nat, bytes: Bytes, phase: Disk.Phase): World {
    w.(disk := w.disk.(
         staging := w.disk.staging[tmp := Disk.File(bytes, w.disk.clock)], mu := Disk.Saving(t, tmp, bytes, phase)))
  }

  ghost predicate CanFinish(w: World, bytes: Bytes, phase: Disk.Phase) {
    match phase
    case Staged => w.disk.quota == 0
    case Scanning(left, used) => left == {} && |bytes| <= w.disk.quota - used
    case Renamed(_) => false
  }

  /** Giving up before the file has its final name: the staging file is removed on the way out. */
  method Refuse(sys: Server, ghost w0: World, t: Id, ghost tmp: nat, ghost bytes: Bytes, ghost phase: Disk.Phase)
    requires Working(w0, t) && tmp !in w0.disk.staging && !phase.Renamed? && sys.w == Inside(w0, t, tmp, bytes, phase)
    modifies sys
    ensures Working(sys.w, t) && SaveFailed(w0, sys.w, t) && sys.w.disk.stray == w0.disk.stray
  {
    hide Imports.Good;
    sys.OnStore(Disk.Fail(t, true));
    assert sys.w.disk.staging == w0.disk.staging;
  }

  /** The world between the rename and the insert. */
  function Named(w: World, t: Id, tmp: nat, bytes: Bytes, key: nat): World {
    w.(disk := w.disk.(
         files := w.disk.files[Disk.Stored(key) := Disk.File(bytes, w.disk.clock)], used := w.disk.used + {key},
         mu := Disk.Saving(t, tmp, bytes, Disk.Renamed(key))))
  }

  method Rename(sys: Server, ghost w0: World, t: Id, ghost tmp: nat, key: nat, ghost bytes: Bytes, ghost phase: Disk.Phase)
    requires tmp !in w0.disk.staging && key !in w0.disk.used && CanFinish(w0, bytes, phase)
    requires sys.w == Inside(w0, t, tmp, bytes, phase)
    modifies sys
    ensures sys.w == Named(w0, t, tmp, bytes, key)
  {
    hide Imports.Good;
    sys.OnStore(Disk.Rename(t, key));
    assert sys.w.disk.staging == w0.disk.staging;
  }

  /** The insert has failed: the file is removed again, if that works. */
  method TakeBack(sys: Server, ghost w0: World, t: Id, ghost tmp: nat, ghost bytes: Bytes, ghost key: nat)
    requires Working(w0, t) && tmp !in w0.disk.staging && key !in w0.disk.stray && Disk.Stored(key) !in w0.disk.files
    requires sys.w == Named(w0, t, tmp, bytes, key)
    modifies sys
    ensures Working(sys.w, t) && SaveFailed(w0, sys.w, t)
  {
    hide Imports.Good;
    var removed: bool := *;
    sys.OnStore(Disk.Fail(t, removed));
    assert sys.w.disk.staging == w0.disk.staging;
    if removed { assert sys.w.disk.files == w0.disk.files; }
  }

  /** Rename, then insert the row; if that fails the file is removed again. */
  method Finish(
    sys: Server, ghost w0: World, t: Id, owner: Id, ghost tmp: nat, key: nat, ghost bytes: Bytes, ghost phase: Disk.Phase,
    fault: bool)
    requires Working(w0, t) && tmp !in w0.disk.staging && sys.w == Inside(w0, t, tmp, bytes, phase)
    requires key !in w0.disk.used && key !in w0.disk.stray && Disk.Stored(key) !in w0.disk.files && CanFinish(w0, bytes, phase)
    modifies sys
    ensures Working(sys.w, t)
    ensures if fault then SaveFailed(w0, sys.w, t) else SavedOne(w0, sys.w, t, owner, key, bytes)
  {
    hide Imports.Good;
    Rename(sys, w0, t, tmp, key, bytes, phase);
    if fault {
      TakeBack(sys, w0, t, tmp, bytes, key);
    } else {
      sys.OnStore(Disk.Insert(t, owner));
    }
  }

  /**
    With `faults` any file-system call or statement may fail.  Without, saving fails for exactly three reasons: the
    call is rejected at once, the file is larger than `maxBytes`, or the quota would be exceeded.
  */
  method Save(sys: Server, t: Id, owner: Id, filename: string, bytes: Bytes, maxBytes: int, faults: bool)
    returns (r: Result<Id, Error>)
    requires Working(sys.w, t) && !sys.w.disk.txs[t].failed && SavesFiles(sys.w.rows.txs[t].op)
    modifies sys
    ensures Working(sys.w, t)
    ensures r.Ok? ==> r.value == old(sys.w).disk.next && |bytes| <= maxBytes
    ensures r.Ok? ==> exists key :: SavedOne(old(sys.w), sys.w, t, owner, key, bytes)
    ensures r == Err(Rejected) <==> !Acceptable(owner, filename, maxBytes)
    ensures r == Err(Rejected) ==> sys.w == old(sys.w)
    ensures r.Err? && r.error != Rejected ==>
      SaveFailed(old(sys.w), sys.w, t) && (!faults ==> sys.w.disk.stray == old(sys.w).disk.stray)
    ensures !faults ==> (r.Ok? <==> Acceptable(owner, filename, maxBytes) && |bytes| <= maxBytes && HasRoom(old(sys.w), |bytes|))
    ensures !faults && r.Err? && r.error != Rejected ==> r.error == if |bytes| > maxBytes then TooLarge else Quota
  {
    hide Imports.Good;
    if owner == 0 || Validation.TrimSpace(filename) == "" || maxBytes <= 0 { return Err(Rejected); }
    r := Write(sys, t, owner, bytes, maxBytes, faults);
  }

  /** The rest of it, under the mutex. */
  method Write(sys: Server, t: Id, owner: Id, bytes: Bytes, maxBytes: nat, faults: bool) returns (r: Result<Id, Error>)
    requires Working(sys.w, t) && !sys.w.disk.txs[t].failed && SavesFiles(sys.w.rows.txs[t].op)
    modifies sys
    ensures Working(sys.w, t)
    ensures r.Ok? ==> r.value == old(sys.w).disk.next && |bytes| <= maxBytes
    ensures r.Ok? ==> exists key :: SavedOne(old(sys.w), sys.w, t, owner, key, bytes)
    ensures r.Err? ==> SaveFailed(old(sys.w), sys.w, t) && (!faults ==> sys.w.disk.stray == old(sys.w).disk.stray)
    ensures r.Err? ==> r.error != Rejected
    ensures !faults ==> (r.Ok? <==> |bytes| <= maxBytes && HasRoom(old(sys.w), |bytes|))
    ensures !faults && r.Err? ==> r.error == if |bytes| > maxBytes then TooLarge else Quota
  {
    hide Imports.Good;
    var w0 := sys.w;
    var key := Draw(sys.w.disk.used + sys.w.disk.stray + Disk.Keys(sys.w.disk));
    var tmp := Draw(sys.w.disk.staging.Keys);
    var read := if |bytes| > maxBytes then bytes[..maxBytes + 1] else bytes;
    sys.OnStore(Disk.Stage(t, tmp, read));
    ghost var phase := Disk.Staged;
    var fault: bool := *;
    if (faults && fault) || |read| > maxBytes {
      Refuse(sys, w0, t, tmp, read, phase);
      return Err(if |read| > maxBytes && !(faults && fault) then TooLarge else Storage);
    }
    if sys.w.disk.quota > 0 {
      var used := Measure(sys, t);
      phase := Disk.Scanning({}, used);
      if |read| > sys.w.disk.quota - used {
        Refuse(sys, w0, t, tmp, read, phase);
        return Err(Quota);
      }
    }
    fault := *;
    if faults && fault {
      Refuse(sys, w0, t, tmp, read, phase);
      return Err(Storage);
    }
    fault := *;
    Finish(sys, w0, t, owner, tmp, key, read, phase, faults && fault);
    r := if faults && fault then Err(Storage) else Ok(w0.disk.next);
  }
}
