/**
  What ending a transaction keeps: committing its pending rows, rolling them back or losing them
  in a crash, and the statements that run outside any transaction.
*/
module RowsCommit {
  import opened Base
  import opened Rows
  import opened RowsSafety

  // ----- the committed rows -----

  /** A pending version of a committed revision belongs to a draft and keeps its problem and number. */
  ghost predicate Replaces(s: State, x: Tx, r: Id)
    requires r in x.revs
  {
    r in s.revs ==>
      s.revs[r].state.Draft? && x.revs[r].problem == s.revs[r].problem && x.revs[r].number == s.revs[r].number
  }

  lemma OnlyDraftsReplaced(s: State, x: Tx, r: Id)
    requires Locked(s, x) && OpOk(s, x) && r in x.revs
    ensures Replaces(s, x, r)
  {
  }

  /** A new revision has the number after the latest of its problem, or is the first of a new one. */
  ghost predicate Adds(s: State, x: Tx, r: Id)
    requires r in x.revs
  {
    || (exists q :: IsLatest(s.revs, x.revs[r].problem, q) && x.revs[r].number == s.revs[q].number + 1)
    || (x.revs[r].number == 1 && x.revs[r].problem !in s.problems)
  }

  ghost predicate ChangesNumbers(s: State, x: Tx, to: Id) {
    && (x.op.Cloning? || x.op.Creating?)
    && to == (if x.op.Cloning? then x.op.to else x.op.rev)
    && to in x.revs && to !in s.revs && Adds(s, x, to)
    && forall r :: r in x.revs ==> r == to
  }

  lemma NewRevision(s: State, x: Tx)
    requires TxOk(s, x) && (x.op.Cloning? || x.op.Creating?)
    ensures ChangesNumbers(s, x, if x.op.Cloning? then x.op.to else x.op.rev)
  {
  }

  lemma NoNewRevision(s: State, x: Tx, r: Id)
    requires Locked(s, x) && OpOk(s, x) && !x.op.Cloning? && !x.op.Creating? && r in x.revs
    ensures r in s.revs
  {
  }

  lemma NumberKept(revs: map<Id, Revision>, revs': map<Id, Revision>, p: Id, n: int)
    requires HasNumber(revs, p, n)
    requires forall r :: r in revs ==> r in revs' && revs'[r].problem == revs[r].problem && revs'[r].number == revs[r].number
    ensures HasNumber(revs', p, n)
  {
  }

  lemma SameNumbers(revs: map<Id, Revision>, revs': map<Id, Revision>)
    requires Numbered(revs) && revs'.Keys == revs.Keys
    requires forall r :: r in revs ==> revs'[r].problem == revs[r].problem && revs'[r].number == revs[r].number
    ensures Numbered(revs')
  {
    forall r | r in revs' ensures Follows(revs', r) {
      assert Follows(revs, r);
      if revs[r].number > 1 { NumberKept(revs, revs', revs[r].problem, revs[r].number - 1); }
    }
  }

  lemma OneMoreNumber(s: State, to: Id, doc: Revision)
    requires Numbered(s.revs) && to !in s.revs
    requires forall r :: r in s.revs ==> s.revs[r].problem in s.problems
    requires || (exists q :: IsLatest(s.revs, doc.problem, q) && doc.number == s.revs[q].number + 1)
             || (doc.number == 1 && doc.problem !in s.problems)
    ensures Numbered(s.revs[to := doc])
  {
    var revs' := s.revs[to := doc];
    forall r | r in revs' ensures Follows(revs', r) {
      if r == to {
        if doc.number > 1 {
          var q :| IsLatest(s.revs, doc.problem, q) && doc.number == s.revs[q].number + 1;
          assert revs'[q].problem == doc.problem;
        }
      } else {
        assert Follows(s.revs, r);
        if s.revs[r].number > 1 { NumberKept(s.revs, revs', s.revs[r].problem, s.revs[r].number - 1); }
      }
    }
  }

  lemma NumbersGrow(s: State, x: Tx, to: Id)
    requires Numbered(s.revs) && (forall r :: r in s.revs ==> s.revs[r].problem in s.problems)
    requires ChangesNumbers(s, x, to) && forall r :: r in x.revs ==> Replaces(s, x, r)
    ensures Numbered(s.revs + x.revs)
  {
    OneMoreNumber(s, to, x.revs[to]);
    SameNumbers(s.revs[to := x.revs[to]], s.revs + x.revs);
  }

  lemma NumbersKept(s: State, x: Tx)
    requires CommittedOk(s) && TxOk(s, x)
    ensures Numbered(s.revs + x.revs)
  {
    hide DocOk, AssignsOk, Numbered, DocsOk, OpOk, Locked;
    forall r | r in x.revs ensures Replaces(s, x, r) { OnlyDraftsReplaced(s, x, r); }
    if x.op.Cloning? || x.op.Creating? {
      NewRevision(s, x);
      NumbersGrow(s, x, if x.op.Cloning? then x.op.to else x.op.rev);
    } else {
      forall r | r in x.revs ensures r in s.revs { NoNewRevision(s, x, r); }
      SameNumbers(s.revs, s.revs + x.revs);
    }
  }

  lemma ProblemExists(s: State, x: Tx, r: Id)
    requires CommittedOk(s) && TxOk(s, x) && r in x.revs
    ensures x.revs[r].problem in s.problems + x.problems
  {
    OnlyDraftsReplaced(s, x, r);
    if r !in s.revs {
      if x.op.Cloning? || x.op.Creating? { NewRevision(s, x); } else { NoNewRevision(s, x, r); }
    }
  }

  lemma PreviewsExist(s: State, x: Tx, p: Id)
    requires Locked(s, x) && OpOk(s, x) && p in x.previews
    requires forall q :: q in s.previews ==> s.previews[q].revision in s.revs
    ensures p < s.next && x.previews[p].revision in s.revs
  {
  }

  lemma CommittedKept(s: State, t: Id)
    requires CommittedOk(s) && t in s.txs && TxOk(s, s.txs[t])
    ensures CommittedOk(Commit(s, t))
  {
    hide Numbered, AssignsOk, PositionsUnique;
    var x, s' := s.txs[t], Commit(s, t);
    forall p | p in s'.problems ensures p < s'.next {
      if p in x.problems { assert x.op.Creating? && LocksProblem(x, p); }
    }
    forall r | r in s'.revs ensures r < s'.next && DocOk(s'.revs[r], s'.parse, s'.next) && s'.revs[r].problem in s'.problems {
      if r in x.revs { ProblemExists(s, x, r); assert LocksRevision(x, r); }
    }
    forall p | p in s'.previews ensures p < s'.next && s'.previews[p].revision in s'.revs {
      if p in x.previews { PreviewsExist(s, x, p); }
    }
    NumbersKept(s, x);
    AssignsKept(s, x, s');
  }

  lemma AssignsKept(s: State, x: Tx, s': State)
    requires CommittedOk(s) && TxOk(s, x)
    requires s'.revs == s.revs + x.revs && s'.assigns == s.assigns && s'.checks == s.checks && s'.next == s.next
    ensures AssignsOk(s')
  {
    hide DocOk, Numbered, DocsOk, OpOk, Locked;
    forall r, p: Id | PointsToPublished(s, r, p) ensures PointsToPublished(s', r, p) {
      if r in x.revs { OnlyDraftsReplaced(s, x, r); }
    }
  }

  // ----- the other transactions -----

  /** What a committing transaction does not touch, seen from another one. */
  lemma LockedRowsKept(s: State, x: Tx, y: Tx, r: Id)
    requires Locked(s, x) && Apart(x, y) && LocksRevision(y, r)
    ensures r !in x.revs
  {
  }

  lemma EditKept(s: State, s': State, x: Tx, y: Tx)
    requires Locked(s, x) && Apart(x, y) && (y.op.Editing? || y.op.Closed?) && EditingOk(s, y)
    requires s'.revs == s.revs + x.revs && s'.previews == s.previews - x.expired + x.previews && s'.next == s.next
    ensures EditingOk(s', y)
  {
    LockedRowsKept(s, x, y, y.op.rev);
    forall p | p in y.previews ensures p !in s'.previews {
      assert LocksPreview(y, p);
      if p in x.previews { assert LocksPreview(x, p); }
    }
  }

  lemma ImportKept(s: State, s': State, x: Tx, y: Tx)
    requires Locked(s, x) && Apart(x, y) && ImportOk(s, y)
    requires s'.revs == s.revs + x.revs && s'.previews == s.previews - x.expired + x.previews && s'.next == s.next
    ensures ImportOk(s', y)
    ensures y.op.Imported? && MarkOk(s, y) ==> MarkOk(s', y)
  {
    LockedRowsKept(s, x, y, y.op.rev);
    assert ImportsPreview(y, y.op.preview);
    if y.op.preview in y.previews { assert LocksPreview(y, y.op.preview); }
    if y.op.preview in x.expired { assert LocksPreview(x, y.op.preview); }
  }

  /** The latest revision of a problem stays the latest while another transaction holds the problem. */
  lemma LatestKept(s: State, x: Tx, y: Tx)
    requires CommittedOk(s) && TxOk(s, x) && Apart(x, y) && y.op.Cloning? && CloningOk(s, y)
    ensures IsLatest(s.revs + x.revs, y.op.problem, y.op.from)
  {
    hide DocOk, AssignsOk, Numbered, DocsOk;
    LockedRowsKept(s, x, y, y.op.from);
    assert LocksProblem(y, y.op.problem);
    forall r | r in x.revs && x.revs[r].problem == y.op.problem ensures x.revs[r].number <= s.revs[y.op.from].number {
      OnlyDraftsReplaced(s, x, r);
      if r !in s.revs { NoRevisionAdded(s, x, r); }
    }
  }

  lemma NoRevisionAdded(s: State, x: Tx, r: Id)
    requires Locked(s, x) && OpOk(s, x) && r in x.revs && r !in s.revs
    ensures LocksProblem(x, x.revs[r].problem)
  {
  }

  lemma CloningKept(s: State, s': State, x: Tx, y: Tx)
    requires CommittedOk(s) && TxOk(s, x) && Apart(x, y) && y.op.Cloning? && CloningOk(s, y)
    requires s'.revs == s.revs + x.revs && s'.problems == s.problems + x.problems
    ensures CloningOk(s', y)
  {
    LatestKept(s, x, y);
    LockedRowsKept(s, x, y, y.op.from);
    LockedRowsKept(s, x, y, y.op.to);
  }

  lemma ProblemsLocked(s: State, x: Tx)
    requires OpOk(s, x)
    ensures forall p :: p in x.problems ==> LocksProblem(x, p)
  {
  }

  lemma CreatingKept(s: State, s': State, x: Tx, y: Tx)
    requires TxOk(s, x) && Apart(x, y) && y.op.Creating? && CreatingOk(s, y)
    requires s'.revs == s.revs + x.revs && s'.problems == s.problems + x.problems
    ensures CreatingOk(s', y)
  {
    LockedRowsKept(s, x, y, y.op.rev);
    assert LocksProblem(y, y.op.problem);
    ProblemsLocked(s, x);
  }

  lemma OpKept(s: State, s': State, x: Tx, y: Tx)
    requires CommittedOk(s) && TxOk(s, x) && OpOk(s, y) && Apart(x, y)
    requires s'.revs == s.revs + x.revs && s'.problems == s.problems + x.problems
    requires s'.previews == s.previews - x.expired + x.previews && s'.next == s.next
    ensures OpOk(s', y)
  {
    match y.op
    case Editing(_) => EditKept(s, s', x, y);
    case Closed(_) => EditKept(s, s', x, y);
    case Importing(_, _, _, _, _) => ImportKept(s, s', x, y);
    case Imported(_, _, _, _, _) => ImportKept(s, s', x, y);
    case Cloning(_, _, _, _) => CloningKept(s, s', x, y);
    case Creating(_, _) => CreatingKept(s, s', x, y);
    case _ =>
  }

  /** A commit breaks nothing, whatever else is going on. */
  lemma CommitKept(s: State, t: Id)
    requires Inv(s) && t in s.txs
    ensures Inv(Commit(s, t))
  {
    var s' := Commit(s, t);
    assert TxOk(s, s.txs[t]);
    CommittedKept(s, t);
    forall u | u in s'.txs ensures TxOk(s', s'.txs[u]) {
      assert TxOk(s, s.txs[u]) && Apart(s.txs[t], s.txs[u]);
      OpKept(s, s', s.txs[t], s.txs[u]);
    }
    FewerApart(s, s');
  }

  lemma FewerApart(s: State, s': State)
    requires AllApart(s) && forall t :: t in s'.txs ==> t in s.txs && s'.txs[t] == s.txs[t]
    ensures AllApart(s')
  {
  }

  /** Rolling back changes no committed row. */
  lemma AbortKept(s: State, t: Id)
    requires Inv(s)
    ensures Inv(Abort(s, t))
    ensures Abort(s, t).(txs := s.txs) == s
  {
    var s' := Abort(s, t);
    SameRows(s, s');
    FewerApart(s, s');
  }

  lemma CrashKept(s: State)
    requires Inv(s)
    ensures Inv(Crash(s))
    ensures Crash(s).(txs := s.txs, checks := s.checks) == s
  {
  }

  lemma SameRows(s: State, s': State)
    requires CommittedOk(s) && s' == s.(txs := s'.txs)
    requires forall t :: t in s'.txs ==> t in s.txs && s'.txs[t] == s.txs[t] && TxOk(s, s.txs[t])
    ensures CommittedOk(s') && forall t :: t in s'.txs ==> TxOk(s', s'.txs[t])
  {
    DocsLater(s, s');
    forall t | t in s'.txs ensures TxOk(s', s'.txs[t]) { TxLater(s, s', s.txs[t]); }
  }

  lemma FreshApart(x: Tx, y: Tx)
    requires x == Tx(Fresh, map[], map[], map[], {})
    ensures Apart(x, y) && Apart(y, x)
  {
  }

  lemma BeginKept(s: State, t: Id)
    requires Inv(s) && t !in s.txs
    ensures Inv(Begin(s, t))
  {
    var s' := Begin(s, t);
    DocsLater(s, s');
    forall u | u in s'.txs ensures TxOk(s', s'.txs[u]) {
      if u != t { TxLater(s, s', s.txs[u]); }
    }
    BeginApart(s, t);
  }

  lemma BeginApart(s: State, t: Id)
    requires AllApart(s) && t !in s.txs
    ensures AllApart(Begin(s, t))
  {
    var s' := Begin(s, t);
    forall u, v | u in s'.txs && v in s'.txs && u != v ensures Apart(s'.txs[u], s'.txs[v]) {
      if u == t { FreshApart(s'.txs[t], s.txs[v]); }
      else if v == t { FreshApart(s'.txs[t], s.txs[u]); }
      else { assert Apart(s.txs[u], s.txs[v]); }
    }
  }

  /** Being published is stable, so the revision an Assign has checked is still fit when it inserts. */
  lemma SingleAssignsKept(s: State, a: Single)
    requires AssignsOk(s) && SingleEnabled(s, a)
    ensures AssignsOk(SingleApply(s, a))
  {
  }

  /** A statement outside transactions: it may add or move assignments, and retitle a problem. */
  ghost predicate SingleOnly(s: State, s': State) {
    && s' == s.(next := s'.next, problems := s'.problems, assigns := s'.assigns, checks := s'.checks)
    && s.next <= s'.next && s'.problems.Keys == s.problems.Keys
  }

  lemma SingleShape(s: State, a: Single, s': State)
    requires SingleEnabled(s, a) && s' == SingleApply(s, a)
    ensures SingleOnly(s, s')
  {
  }

  lemma SingleKept(s: State, a: Single, s': State)
    requires Inv(s) && SingleEnabled(s, a) && s' == SingleApply(s, a)
    ensures Inv(s')
  {
    SingleShape(s, a, s');
    SingleAssignsKept(s, a);
    SingleCommittedKept(s, s');
    forall t | t in s'.txs ensures TxOk(s', s'.txs[t]) { SingleTxKept(s, s', s.txs[t]); }
    FewerApart(s, s');
  }

  lemma SingleOpKept(s: State, s': State, x: Tx)
    requires OpOk(s, x) && SingleOnly(s, s') && s'.next == s.next
    ensures OpOk(s', x)
  {
  }

  lemma SingleTxKept(s: State, s': State, x: Tx)
    requires TxOk(s, x) && SingleOnly(s, s')
    ensures TxOk(s', x)
  {
    TxLater(s, s.(next := s'.next), x);
    SingleOpKept(s.(next := s'.next), s', x);
  }

  lemma SingleCommittedKept(s: State, s': State)
    requires CommittedOk(s) && SingleOnly(s, s') && AssignsOk(s')
    ensures CommittedOk(s')
  {
    forall r | r in s'.revs ensures r < s'.next && DocOk(s'.revs[r], s'.parse, s'.next) && s'.revs[r].problem in s'.problems {
      DocLater(s.revs[r], s.parse, s.next, s'.next);
    }
  }
}
