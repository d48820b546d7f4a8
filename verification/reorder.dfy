/**
  Reordering series in a contest or problems in a series (`reorder` in internal/content/service.go):
  positions are permuted by single-row updates under constraints that the database checks after
  every one of them, by way of a range above all positions in use.
*/
module Reorder {
  import opened Base

  datatype Row = Row(parent: Id, position: int)

  type Rows = map<Id, Row>

  datatype Error = Incomplete | TooLarge | BadId

  const LIMIT := 1073741824
  const MAX_IDS := 10000

  predicate Child(rows: Rows, parent: Id, id: Id) {
    id in rows && rows[id].parent == parent
  }

  /** The check and the unique index on (parent, position). */
  ghost predicate Valid(rows: Rows) {
    && (forall id :: id in rows ==> rows[id].position >= 0)
    && (forall i, j :: i in rows && j in rows && rows[i] == rows[j] ==> i == j)
  }

  ghost predicate Distinct(ids: seq<Id>) {
    forall i, j :: 0 <= i < j < |ids| ==> ids[i] != ids[j]
  }

  /** The list names every row of the parent exactly once. */
  ghost predicate Lists(rows: Rows, parent: Id, ids: seq<Id>) {
    Distinct(ids) && forall id :: Child(rows, parent, id) <==> id in ids
  }

  ghost predicate Below(rows: Rows, parent: Id, bound: int) {
    forall id :: Child(rows, parent, id) ==> rows[id].position < bound
  }

  /** Nothing but the positions of the parent's rows may differ. */
  ghost predicate OthersUntouched(rows: Rows, parent: Id, rows': Rows) {
    && rows'.Keys == rows.Keys
    && (forall id :: id in rows && !Child(rows, parent, id) ==> rows'[id] == rows[id])
    && (forall id :: Child(rows, parent, id) ==> rows'[id].parent == parent)
  }

  /** What every table between two updates must be. */
  ghost predicate Acceptable(rows: Rows, parent: Id, rows': Rows) {
    Valid(rows') && OthersUntouched(rows, parent, rows') && Below(rows', parent, 2147483648)
  }

  ghost predicate Arranged(rows: Rows, parent: Id, ids: seq<Id>) {
    forall i :: 0 <= i < |ids| ==> ids[i] in rows && rows[ids[i]] == Row(parent, i)
  }

  ghost predicate Oversized(rows: Rows, parent: Id, ids: seq<Id>) {
    |ids| > 10000 || !Below(rows, parent, 1073741825)
  }

  // ----- counting -----

  lemma Subset(a: set<Id>, b: set<Id>)
    requires a <= b && |a| >= |b|
    ensures a == b
  {
    forall x | x in b ensures x in a {
      if x !in a { SubsetCount(a, b - {x}); }
    }
  }

  /** Pigeonhole: as many distinct rows as there are rows are all of them. */
  lemma {:induction false} AllNamed(rows: Rows, parent: Id, all: seq<Id>, ids: seq<Id>)
    requires Lists(rows, parent, all) && Distinct(ids) && |ids| == |all|
    requires forall id :: id in ids ==> id in all
    ensures Lists(rows, parent, ids)
  {
    DistinctCount(all);
    DistinctCount(ids);
    assert Elements(ids) <= Elements(all);
    Subset(Elements(ids), Elements(all));
    forall id ensures id in ids <==> id in all { assert id in ids <==> id in Elements(ids); }
  }

  lemma AllOrSome(rows: Rows, parent: Id, all: seq<Id>, ids: seq<Id>)
    requires Lists(rows, parent, all) && |ids| == |all|
    ensures Named(rows, parent, ids, |ids|) <==> Lists(rows, parent, ids)
  {
    assert ids[..|ids|] == ids;
    if Named(rows, parent, ids, |ids|) {
      forall id | id in ids ensures id in all {
        var k :| 0 <= k < |ids| && ids[k] == id;
        assert Child(rows, parent, ids[k]);
      }
      AllNamed(rows, parent, all, ids);
    }
  }

  ghost function Children(rows: Rows, parent: Id): set<Id> {
    set id | id in rows && Child(rows, parent, id)
  }

  lemma CountChildren(rows: Rows, parent: Id, ids: seq<Id>)
    requires Lists(rows, parent, ids)
    ensures |ids| == |Children(rows, parent)|
  {
    DistinctCount(ids);
    assert Elements(ids) == Children(rows, parent);
  }

  // ----- one update -----

  /** After `i` updates of the first loop: the rows named so far are above `top`, the others where they were. */
  ghost predicate Lifted(was: Rows, parent: Id, ids: seq<Id>, top: int, i: nat, now: Rows)
    requires i <= |ids|
  {
    && now.Keys == was.Keys
    && (forall k :: 0 <= k < i ==> ids[k] in now && now[ids[k]] == Row(parent, top + 1 + k))
    && (forall id :: id in was && id !in ids[..i] ==> now[id] == was[id])
  }

  /** After `i` updates of the second loop: the rows named so far are in place, the others still above. */
  ghost predicate Lowered(was: Rows, parent: Id, ids: seq<Id>, top: int, i: nat, now: Rows)
    requires i <= |ids|
  {
    && now.Keys == was.Keys
    && (forall k :: 0 <= k < i ==> ids[k] in now && now[ids[k]] == Row(parent, k))
    && (forall k :: i <= k < |ids| ==> ids[k] in now && now[ids[k]] == Row(parent, top + 1 + k))
    && (forall id :: id in was && id !in ids ==> now[id] == was[id])
  }

  lemma LiftedIsAcceptable(was: Rows, parent: Id, ids: seq<Id>, top: int, i: nat, now: Rows)
    requires Valid(was) && i <= |ids| <= MAX_IDS && 0 <= top <= LIMIT && Below(was, parent, top + 1)
    requires forall k :: 0 <= k < i ==> Child(was, parent, ids[k])
    requires Lifted(was, parent, ids, top, i, now)
    ensures Acceptable(was, parent, now)
  {
  }

  lemma LoweredIsAcceptable(was: Rows, parent: Id, ids: seq<Id>, top: int, i: nat, now: Rows)
    requires Valid(was) && i <= |ids| <= MAX_IDS && 0 <= top <= LIMIT && Lists(was, parent, ids)
    requires Lowered(was, parent, ids, top, i, now)
    ensures Acceptable(was, parent, now)
  {
    forall id | id in now
      ensures id in ids ==> exists k :: 0 <= k < |ids| && ids[k] == id && now[id] == Row(parent, if k < i then k else top + 1 + k)
      ensures id !in ids ==> now[id] == was[id] && !Child(was, parent, id)
    {
      if id in ids { var k :| 0 <= k < |ids| && ids[k] == id; }
    }
    forall a, b | a in now && b in now && now[a] == now[b] ensures a == b {
      if a in ids && b in ids {
        var k :| 0 <= k < |ids| && ids[k] == a && now[a] == Row(parent, if k < i then k else top + 1 + k);
        var l :| 0 <= l < |ids| && ids[l] == b && now[b] == Row(parent, if l < i then l else top + 1 + l);
        assert k == l;
      }
    }
  }

  // ----- the table and the operation -----

  /** A row as SELECT id, position returns it. */
  datatype Found = Found(id: Id, position: int)

  ghost predicate Finds(rows: Rows, parent: Id, found: seq<Found>) {
    && Lists(rows, parent, Ids(found))
    && forall i :: 0 <= i < |found| ==> found[i].id in rows && found[i].position == rows[found[i].id].position
  }

  function Ids(found: seq<Found>): (ids: seq<Id>)
    ensures |ids| == |found|
  {
    seq(|found|, i requires 0 <= i < |found| => found[i].id)
  }

  class Table {
    var rows: Rows
    /** Every table that has been visible inside a transaction, one for each update. */
    ghost var history: seq<Rows>

    constructor (rows: Rows)
      requires Valid(rows)
      ensures this.rows == rows && history == []
    {
      this.rows := rows;
      history := [];
    }

    /** UPDATE of one position by primary key, refused by the database when it would break a constraint. */
    method Update(id: Id, position: int) returns (ok: bool)
      requires Valid(rows) && id in rows
      modifies this
      ensures ok <==> Valid(old(rows)[id := old(rows)[id].(position := position)])
      ensures ok ==> rows == old(rows)[id := old(rows)[id].(position := position)] && history == old(history) + [rows]
      ensures !ok ==> rows == old(rows) && history == old(history)
      ensures Valid(rows)
    {
      var next := rows[id].(position := position);
      ok := position >= 0 && forall j :: j in rows && j != id ==> rows[j] != next;
      if ok {
        rows := rows[id := next];
        history := history + [rows];
      } else if position >= 0 {
        ghost var j :| j in rows && j != id && rows[j] == next;
        assert rows[id := next][j] == rows[id := next][id];
      } else {
        assert rows[id := next][id].position < 0;
      }
    }

    /** The rows of a parent, in no particular order. */
    method Find(parent: Id) returns (found: seq<Found>)
      ensures Finds(rows, parent, found)
    {
      found := [];
      var left := rows.Keys;
      while left != {}
        invariant left <= rows.Keys
        invariant Distinct(Ids(found))
        invariant forall id :: id in Ids(found) <==> Child(rows, parent, id) && id !in left
        invariant forall i :: 0 <= i < |found| ==> found[i].id in rows && found[i].position == rows[found[i].id].position
        decreases left
      {
        var id :| id in left;
        left := left - {id};
        if rows[id].parent == parent {
          ghost var before := Ids(found);
          found := found + [Found(id, rows[id].position)];
          assert Ids(found) == before + [id];
        }
      }
    }

    /** The set of rows and the highest position, from which the upper range starts. */
    method Survey(parent: Id, found: seq<Found>) returns (seen: map<Id, bool>, max: int)
      requires Valid(rows) && Finds(rows, parent, found)
      ensures forall id :: id in seen <==> id in Ids(found)
      ensures max >= 0 && Below(rows, parent, max + 1) && (max > LIMIT <==> !Below(rows, parent, LIMIT + 1))
    {
      seen := map[];
      max := 0;
      for i := 0 to |found|
        invariant forall id :: id in seen <==> id in Ids(found)[..i]
        invariant 0 <= max && (max == 0 || exists k :: 0 <= k < i && found[k].position == max)
        invariant forall k :: 0 <= k < i ==> found[k].position <= max
      {
        seen := seen[found[i].id := true];
        if found[i].position > max { max := found[i].position; }
        assert Ids(found)[..i + 1] == Ids(found)[..i] + [found[i].id];
      }
      assert Ids(found)[..|found|] == Ids(found);
      MaxBounds(rows, parent, found, max);
    }

    /** One update of the first pass; the database never refuses it. */
    method LiftNext(parent: Id, ids: seq<Id>, max: int, i: nat, ghost was: Rows)
      requires Valid(was) && i < |ids| <= MAX_IDS && 0 <= max <= LIMIT && Below(was, parent, max + 1)
      requires Lifted(was, parent, ids, max, i, rows) && Valid(rows)
      requires ids[i] !in ids[..i] && Named(was, parent, ids, i + 1)
      modifies this
      ensures Lifted(was, parent, ids, max, i + 1, rows) && Valid(rows) && Acceptable(was, parent, rows)
      ensures history == old(history) + [rows]
    {
      LiftOne(was, parent, ids, max, i, rows);
      var ok := Update(ids[i], max + 1 + i);
      if !ok { assert false; }
    }

    /** The first pass, into the range above `max`; it stops at an identifier that is unknown or repeated. */
    method Lift(parent: Id, ids: seq<Id>, all: map<Id, bool>, max: int) returns (r: Result<(), Error>)
      requires Valid(rows) && |ids| <= MAX_IDS && 0 <= max <= LIMIT && Below(rows, parent, max + 1)
      requires forall id :: id in all <==> Child(rows, parent, id)
      modifies this
      ensures r.Ok? ==> Lifted(old(rows), parent, ids, max, |ids|, rows) && Valid(rows)
      ensures r.Ok? <==> Named(old(rows), parent, ids, |ids|)
      ensures r.Err? ==> r.error == BadId
      ensures Grown(old(rows), parent, old(history), history)
      ensures r.Ok? ==> |history| == |old(history)| + |ids|
    {
      ghost var was, before := rows, history;
      var seen := all;
      for i := 0 to |ids|
        invariant Lifted(was, parent, ids, max, i, rows) && Valid(rows)
        invariant Named(was, parent, ids, i)
        invariant forall id :: id in seen <==> Child(was, parent, id) && id !in ids[..i]
        invariant Grown(was, parent, before, history) && |history| == |before| + i
      {
        NextNamed(was, parent, ids, i);
        if ids[i] !in seen { return Err(BadId); }
        seen := seen - {ids[i]};
        ghost var history0 := history;
        LiftNext(parent, ids, max, i, was);
        GrowOne(was, parent, before, history0, rows);
      }
      r := Ok(());
    }

    /** The second pass, down to the positions asked for. */
    method Lower(parent: Id, ids: seq<Id>, ghost was: Rows, ghost max: int)
      requires Valid(was) && |ids| <= MAX_IDS && 0 <= max <= LIMIT && Lists(was, parent, ids)
      requires Lowered(was, parent, ids, max, 0, rows) && Valid(rows)
      modifies this
      ensures Lowered(was, parent, ids, max, |ids|, rows) && Valid(rows)
      ensures Grown(was, parent, old(history), history) && |history| == |old(history)| + |ids|
    {
      ghost var before := history;
      for i := 0 to |ids|
        invariant Lowered(was, parent, ids, max, i, rows) && Valid(rows)
        invariant Grown(was, parent, before, history) && |history| == |before| + i
      {
        LowerOne(was, parent, ids, max, i, rows);
        GrowOne(was, parent, before, history, rows[ids[i] := rows[ids[i]].(position := i)]);
        var ok := Update(ids[i], i);
        if !ok { assert false; }
      }
    }

    /**
      Puts the rows of the parent in the order of `ids`, by two passes of updates; any error rolls
      the transaction back.  It succeeds for exactly the complete lists within the limits, no update
      ever breaks a constraint, and every table on the way keeps the constraints and 32-bit range.
    */
    method Reorder(parent: Id, ids: seq<Id>) returns (r: Result<(), Error>)
      requires Valid(rows)
      modifies this
      ensures r.Ok? <==> Lists(old(rows), parent, ids) && !Oversized(old(rows), parent, ids)
      ensures r.Ok? ==> OthersUntouched(old(rows), parent, rows) && Arranged(rows, parent, ids)
      ensures r.Err? ==> rows == old(rows)
      ensures r.Err? ==> r.error == Reason(old(rows), parent, ids)
      ensures Valid(rows)
      ensures Grown(old(rows), parent, old(history), history)
      ensures r.Ok? ==> |history| == |old(history)| + 2 * |ids|
    {
      var before := rows;
      var found := Find(parent);
      CountChildren(rows, parent, Ids(found));
      if |found| != |ids| {
        if Lists(rows, parent, ids) { CountChildren(rows, parent, ids); }
        return Err(Incomplete);
      }
      var seen, max := Survey(parent, found);
      if max > LIMIT || |ids| > MAX_IDS { return Err(TooLarge); }
      r := Lift(parent, ids, seen, max);
      AllOrSome(before, parent, Ids(found), ids);
      if r.Err? {
        rows := before;
        return;
      }
      Lower(parent, ids, before, max);
      LoweredIsAcceptable(before, parent, ids, max, |ids|, rows);
    }
  }

  /** The first check that a refused order fails. */
  ghost function Reason(rows: Rows, parent: Id, ids: seq<Id>): Error {
    if |ids| != |Children(rows, parent)| then Incomplete
    else if Oversized(rows, parent, ids) then TooLarge
    else BadId
  }

  /** Every table recorded since `before` is acceptable. */
  ghost predicate Grown(was: Rows, parent: Id, before: seq<Rows>, history: seq<Rows>) {
    before <= history && forall i :: |before| <= i < |history| ==> Acceptable(was, parent, history[i])
  }

  lemma MaxBounds(rows: Rows, parent: Id, found: seq<Found>, max: int)
    requires Finds(rows, parent, found) && Valid(rows) && max >= 0
    requires forall k :: 0 <= k < |found| ==> found[k].position <= max
    requires max == 0 || exists k :: 0 <= k < |found| && found[k].position == max
    ensures Below(rows, parent, max + 1)
    ensures max > LIMIT <==> !Below(rows, parent, LIMIT + 1)
  {
    forall id | Child(rows, parent, id) ensures rows[id].position <= max {
      var k :| 0 <= k < |Ids(found)| && Ids(found)[k] == id;
    }
    if max > LIMIT {
      var k :| 0 <= k < |found| && found[k].position == max;
      assert Ids(found)[k] == found[k].id;
      assert Child(rows, parent, found[k].id);
    }
  }

  lemma GrowOne(was: Rows, parent: Id, before: seq<Rows>, history: seq<Rows>, next: Rows)
    requires Grown(was, parent, before, history) && Acceptable(was, parent, next)
    ensures Grown(was, parent, before, history + [next])
  {
  }

  /** The first `i` identifiers are different rows of the parent. */
  ghost predicate Named(rows: Rows, parent: Id, ids: seq<Id>, i: nat)
    requires i <= |ids|
  {
    Distinct(ids[..i]) && forall k :: 0 <= k < i ==> Child(rows, parent, ids[k])
  }

  lemma NextNamed(rows: Rows, parent: Id, ids: seq<Id>, i: nat)
    requires i < |ids| && Named(rows, parent, ids, i)
    ensures ids[..i + 1] == ids[..i] + [ids[i]]
    ensures Named(rows, parent, ids, i + 1) <==> Child(rows, parent, ids[i]) && ids[i] !in ids[..i]
    ensures Named(rows, parent, ids, |ids|) ==> Named(rows, parent, ids, i + 1)
  {
  }

  /** Moving the next row up keeps every constraint. */
  lemma LiftOne(was: Rows, parent: Id, ids: seq<Id>, top: int, i: nat, now: Rows)
    requires Valid(was) && i < |ids| <= MAX_IDS && 0 <= top <= LIMIT && Below(was, parent, top + 1)
    requires Lifted(was, parent, ids, top, i, now) && ids[i] !in ids[..i] && Named(was, parent, ids, i + 1)
    ensures ids[i] in now
    ensures var next := now[ids[i] := now[ids[i]].(position := top + 1 + i)];
            Lifted(was, parent, ids, top, i + 1, next) && Acceptable(was, parent, next)
  {
  }

  /** Moving the next row down to its place keeps every constraint. */
  lemma LowerOne(was: Rows, parent: Id, ids: seq<Id>, top: int, i: nat, now: Rows)
    requires Valid(was) && i < |ids| <= MAX_IDS && 0 <= top <= LIMIT && Lists(was, parent, ids)
    requires Lowered(was, parent, ids, top, i, now)
    ensures ids[i] in now
    ensures var next := now[ids[i] := now[ids[i]].(position := i)];
            Lowered(was, parent, ids, top, i + 1, next) && Acceptable(was, parent, next)
  {
    var next := now[ids[i] := Row(parent, i)];
    assert now[ids[i]].(position := i) == Row(parent, i);
    forall k | 0 <= k < |ids| && k != i ensures ids[k] in now && next[ids[k]] == now[ids[k]] {}
    LoweredIsAcceptable(was, parent, ids, top, i + 1, next);
  }
}
