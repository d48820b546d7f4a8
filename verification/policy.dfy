/**
  Who may read what (`ManageContest`, `ManageProblem`, `CanReadSeries`, `CanSubmit`, `Statement` and
  `Artifact` in internal/content/service.go).  The searches with their early returns and error exits
  are shown to decide plain relations over the tables.
*/
module Policy {
  import opened Base
  import Members
  import Rows
  import opened World

  type Actor = Members.Actor

  datatype Contest = Contest(published: bool, start: Option<Time>, end: Option<Time>)

  datatype Series = Series(contest: Id, start: Option<Time>, end: Option<Time>, release: Option<Time>)

  datatype Catalog = Catalog(
    contests: map<Id, Contest>, series: map<Id, Series>, members: map<Id, Members.Membership>,
    problems: map<Id, Rows.Problem>, revs: map<Id, Rows.Revision>, assigns: map<Id, Rows.Assignment>,
    artifacts: set<Id>)

  datatype Error = Unauthorized | Forbidden | NotFound

  /** The foreign keys of these tables, and assignments pointing to published revisions of their problems. */
  ghost predicate Linked(c: Catalog) {
    && (forall s :: s in c.series ==> c.series[s].contest in c.contests)
    && (forall r :: r in c.revs ==> c.revs[r].problem in c.problems)
    && (forall r :: r in c.revs ==> ArtifactsLinked(c, c.revs[r]))
    && (forall a :: a in c.assigns ==> AssignLinked(c, c.assigns[a]))
  }

  predicate ArtifactsLinked(c: Catalog, doc: Rows.Revision) {
    && (doc.pdf.Some? ==> doc.pdf.value in c.artifacts)
    && forall i :: i in doc.tests ==> doc.tests[i].input in c.artifacts && doc.tests[i].output in c.artifacts
  }

  predicate AssignLinked(c: Catalog, a: Rows.Assignment) {
    && a.series in c.series && a.problem in c.problems
    && a.revision in c.revs && c.revs[a.revision].state.Published? && c.revs[a.revision].problem == a.problem
  }

  // ----- contests, problems, series -----

  function ManageContest(c: Catalog, actor: Option<Actor>, id: Id): Result<(), Error> {
    if actor.None? then Err(Unauthorized)
    else if id !in c.contests then Err(NotFound)
    else if actor.value.admin then Ok(())
    else if Members.HasRole(c.members, id, actor.value.id, Members.Organizer) then Ok(())
    else Err(Forbidden)
  }

  function ManageProblem(c: Catalog, actor: Option<Actor>, id: Id): Result<(), Error> {
    if actor.None? then Err(Unauthorized)
    else if id !in c.problems then Err(NotFound)
    else if !actor.value.admin && c.problems[id].owner != actor.value.id then Err(Forbidden)
    else Ok(())
  }

  predicate Before(now: Time, t: Option<Time>) {
    t.Some? && now < t.value
  }

  function CanReadSeries(c: Catalog, actor: Option<Actor>, s: Series, now: Time): Result<(), Error> {
    var manages := ManageContest(c, actor, s.contest);
    if manages.Ok? then Ok(())
    else if manages.error != Forbidden && manages.error != Unauthorized then manages
    else if actor.None? then Err(Unauthorized)
    else if s.contest !in c.contests then Err(NotFound)
    else if !c.contests[s.contest].published then Err(Forbidden)
    else if Before(now, c.contests[s.contest].start) then Err(Forbidden)
    else if Before(now, if s.release.None? then s.start else s.release) then Err(Forbidden)
    else if !Members.IsMember(c.members, s.contest, actor.value.id) then Err(Forbidden)
    else Ok(())
  }

  /** Members read a series of a published contest once both have opened; its organizers and admins always. */
  predicate Readable(c: Catalog, actor: Actor, s: Series, now: Time) {
    && s.contest in c.contests
    && (|| actor.admin
        || Members.HasRole(c.members, s.contest, actor.id, Members.Organizer)
        || (&& c.contests[s.contest].published && Members.IsMember(c.members, s.contest, actor.id)
            && Within(now, c.contests[s.contest].start, None)
            && Within(now, if s.release.Some? then s.release else s.start, None)))
  }

  lemma CanReadSeriesDecides(c: Catalog, actor: Option<Actor>, s: Series, now: Time)
    ensures CanReadSeries(c, actor, s, now).Ok? <==> actor.Some? && Readable(c, actor.value, s, now)
    ensures actor.Some? && s.contest in c.contests && CanReadSeries(c, actor, s, now).Err? ==>
      CanReadSeries(c, actor, s, now).error == Forbidden
  {
  }

  predicate Within(now: Time, start: Option<Time>, end: Option<Time>) {
    (start.Some? ==> start.value <= now) && (end.Some? ==> now < end.value)
  }

  /** A participant who can read the series, while contest and series are both open. */
  predicate Eligible(c: Catalog, actor: Actor, s: Series, now: Time) {
    && Readable(c, actor, s, now)
    && Members.HasRole(c.members, s.contest, actor.id, Members.Participant)
    && c.contests[s.contest].published
    && Within(now, c.contests[s.contest].start, c.contests[s.contest].end) && Within(now, s.start, s.end)
  }

  method CanSubmit(c: Catalog, actor: Option<Actor>, id: Id, now: Time) returns (r: Result<(), Error>)
    ensures r.Ok? <==> actor.Some? && id in c.series && Eligible(c, actor.value, c.series[id], now)
    ensures Linked(c) && actor.Some? && id in c.series && r.Err? ==> r.error == Forbidden
  {
    if actor.None? { return Err(Unauthorized); }
    if id !in c.series { return Err(NotFound); }
    var s := c.series[id];
    CanReadSeriesDecides(c, actor, s, now);
    var access := CanReadSeries(c, actor, s, now);
    if access.Err? { return access; }
    if !Members.HasRole(c.members, s.contest, actor.value.id, Members.Participant) { return Err(Forbidden); }
    if s.contest !in c.contests { return Err(NotFound); }
    var contest := c.contests[s.contest];
    if !contest.published { return Err(Forbidden); }
    var windows := [(contest.start, contest.end), (s.start, s.end)];
    for i := 0 to |windows|
      invariant forall j :: 0 <= j < i ==> Within(now, windows[j].0, windows[j].1)
    {
      var (start, end) := windows[i];
      if (start.Some? && now < start.value) || (end.Some? && !(now < end.value)) { return Err(Forbidden); }
    }
    assert Within(now, windows[0].0, windows[0].1) && Within(now, windows[1].0, windows[1].1);
    r := Ok(());
  }

  // ----- statements -----

  datatype Sample = Sample(position: int, input: Id, output: Id)

  datatype Statement = Statement(
    assignment: Id, revision: Id, title: string, code: string, text: string, pdf: Option<Id>,
    timeLimit: Option<int>, memoryLimit: Option<int>, languages: string, samples: seq<Sample>)

  function SampleOf(row: Rows.TestCase): Sample {
    Sample(row.position, row.input, row.output)
  }

  /** The sample tests of a revision, each exactly once, by position. */
  ghost predicate AreSamples(tests: map<Id, Rows.TestCase>, samples: seq<Sample>) {
    && (exists order: seq<Id> :: ListsSamples(tests, samples, order))
    && forall j, k :: 0 <= j < k < |samples| ==> samples[j].position <= samples[k].position
  }

  /** The k-th sample is the test `order[k]`: its position, its input and its output. */
  ghost predicate ListsSamples(tests: map<Id, Rows.TestCase>, samples: seq<Sample>, order: seq<Id>) {
    && |order| == |samples|
    && (forall j, k :: 0 <= j < k < |order| ==> order[j] != order[k])
    && (forall i :: i in order <==> i in tests && tests[i].sample)
    && forall k :: 0 <= k < |order| ==> order[k] in tests && IsSample(tests[order[k]], samples[k])
  }

  predicate IsSample(row: Rows.TestCase, s: Sample) {
    row.sample && s.position == row.position && s.input == row.input && s.output == row.output
  }

  ghost function SampleTests(tests: map<Id, Rows.TestCase>): set<Id> {
    set i | i in tests && tests[i].sample
  }

  lemma {:induction false} ListedOnce(tests: map<Id, Rows.TestCase>, order: seq<Id>)
    requires forall j, k :: 0 <= j < k < |order| ==> order[j] != order[k]
    requires forall i: Id :: i in order <==> i in SampleTests(tests)
    ensures |order| == |SampleTests(tests)|
  {
    hide SampleTests;
    DistinctCount(order);
    assert Elements(order) == SampleTests(tests);
  }

  /** As many samples as there are sample tests. */
  lemma {:induction false} SampleCount(tests: map<Id, Rows.TestCase>, samples: seq<Sample>)
    requires AreSamples(tests, samples)
    ensures |samples| == |SampleTests(tests)|
  {
    hide IsSample;
    var order: seq<Id> :| ListsSamples(tests, samples, order);
    ListedOnce(tests, order);
  }

  ghost predicate Lists(s: Statement, id: Id) {
    s.pdf == Some(id) || exists k :: 0 <= k < |s.samples| && (s.samples[k].input == id || s.samples[k].output == id)
  }

  /** What a published revision shows to its readers: the PDF and the sample tests. */
  predicate Shows(doc: Rows.Revision, id: Id) {
    doc.pdf == Some(id) || exists i :: i in doc.tests && doc.tests[i].sample && UsesRow(doc.tests[i], id)
  }

  predicate Open(c: Catalog, actor: Actor, a: Id, now: Time) {
    a in c.assigns && c.assigns[a].series in c.series && Readable(c, actor, c.series[c.assigns[a].series], now)
  }

  method ReadSamples(tests: map<Id, Rows.TestCase>) returns (samples: seq<Sample>)
    ensures AreSamples(tests, samples)
  {
    samples := [];
    ghost var order: seq<Id> := [];
    var left := set i | i in tests && tests[i].sample;
    while left != {}
      invariant left <= tests.Keys && forall i :: i in left ==> tests[i].sample
      invariant forall j, k :: 0 <= j < k < |samples| ==> samples[j].position <= samples[k].position
      invariant forall j, i :: 0 <= j < |samples| && i in left ==> samples[j].position <= tests[i].position
      invariant |order| == |samples| && forall j, k :: 0 <= j < k < |order| ==> order[j] != order[k]
      invariant forall i :: i in order <==> i in tests && tests[i].sample && i !in left
      invariant forall k :: 0 <= k < |order| ==> order[k] in tests && IsSample(tests[order[k]], samples[k])
      decreases left
    {
      var i := First(tests, left);
      samples, order := samples + [SampleOf(tests[i])], order + [i];
      left := left - {i};
    }
    assert ListsSamples(tests, samples, order);
  }

  /** ORDER BY position: the row that comes next. */
  method First(tests: map<Id, Rows.TestCase>, left: set<Id>) returns (first: Id)
    requires left != {} && left <= tests.Keys
    ensures first in left && forall i :: i in left ==> tests[first].position <= tests[i].position
  {
    first :| first in left;
    var rest := left - {first};
    while rest != {}
      invariant first in left && rest <= left
      invariant forall i :: i in left && i !in rest ==> tests[first].position <= tests[i].position
      decreases rest
    {
      var i :| i in rest;
      if tests[i].position < tests[first].position { first := i; }
      rest := rest - {i};
    }
  }

  /** What the statement of an assignment must be. */
  ghost predicate IsStatement(c: Catalog, a: Id, s: Statement) {
    && a in c.assigns && c.assigns[a].revision in c.revs && c.assigns[a].problem in c.problems
    && var doc := c.revs[c.assigns[a].revision];
       && s == Statement(a, c.assigns[a].revision, c.problems[c.assigns[a].problem].title, c.assigns[a].code, doc.meta.statement, doc.pdf,
                         doc.meta.timeLimit, doc.meta.memoryLimit, doc.meta.languages, s.samples)
       && AreSamples(doc.tests, s.samples)
  }

  method ReadStatement(c: Catalog, actor: Option<Actor>, a: Id, now: Time) returns (r: Result<Statement, Error>)
    requires Linked(c)
    ensures r.Ok? <==> actor.Some? && Open(c, actor.value, a, now)
    ensures r.Ok? ==> IsStatement(c, a, r.value)
    ensures r.Err? ==> r.error == if a !in c.assigns then NotFound else if actor.None? then Unauthorized else Forbidden
  {
    if a !in c.assigns { return Err(NotFound); }
    var assignment := c.assigns[a];
    assert AssignLinked(c, assignment);
    if assignment.series !in c.series { return Err(NotFound); }
    CanReadSeriesDecides(c, actor, c.series[assignment.series], now);
    var access := CanReadSeries(c, actor, c.series[assignment.series], now);
    if access.Err? { return Err(access.error); }
    if assignment.revision !in c.revs { return Err(NotFound); }
    var doc := c.revs[assignment.revision];
    if !doc.state.Published? { return Err(Forbidden); }
    if assignment.problem !in c.problems { return Err(NotFound); }
    var samples := ReadSamples(doc.tests);
    r := Ok(Statement(
      a, assignment.revision, c.problems[assignment.problem].title, assignment.code, doc.meta.statement, doc.pdf,
      doc.meta.timeLimit, doc.meta.memoryLimit, doc.meta.languages, samples));
  }

  lemma ListsWhatIsShown(c: Catalog, a: Id, s: Statement, id: Id)
    requires IsStatement(c, a, s)
    ensures Lists(s, id) <==> Shows(c.revs[c.assigns[a].revision], id)
  {
  }

  // ----- downloads -----

  predicate Owns(c: Catalog, actor: Actor, id: Id) {
    exists r :: r in c.revs && OwnsRevision(c, actor, r, id)
  }

  /** The PDF of the revision, or the input or the output of one of its tests, sample or not. */
  predicate Has(doc: Rows.Revision, id: Id) {
    doc.pdf == Some(id) || exists i :: i in doc.tests && (doc.tests[i].input == id || doc.tests[i].output == id)
  }

  predicate OwnsRevision(c: Catalog, actor: Actor, r: Id, id: Id)
    requires r in c.revs
  {
    Has(c.revs[r], id) && c.revs[r].problem in c.problems && c.problems[c.revs[r].problem].owner == actor.id
  }

  /** Some assignment that the user can read shows the artifact. */
  predicate ShownTo(c: Catalog, actor: Actor, id: Id, now: Time) {
    exists a :: a in c.assigns && ShownBy(c, actor, a, id, now)
  }

  predicate ShownBy(c: Catalog, actor: Actor, a: Id, id: Id, now: Time)
    requires a in c.assigns
  {
    Open(c, actor, a, now) && c.assigns[a].revision in c.revs && Shows(c.revs[c.assigns[a].revision], id)
  }

  predicate MayDownload(c: Catalog, actor: Actor, id: Id, now: Time) {
    id in c.artifacts && (actor.admin || Owns(c, actor, id) || ShownTo(c, actor, id, now))
  }

  /** The assignments of one revision, in no particular order; the error exits are the `assert false`. */
  method ReadableAssignment(c: Catalog, actor: Actor, r: Id, now: Time) returns (found: bool)
    requires Linked(c)
    ensures found <==> exists a :: a in c.assigns && c.assigns[a].revision == r && Open(c, actor, a, now)
  {
    var left := set a | a in c.assigns && c.assigns[a].revision == r;
    while left != {}
      invariant left <= c.assigns.Keys && forall a :: a in left ==> c.assigns[a].revision == r
      invariant forall a :: a in c.assigns && c.assigns[a].revision == r && a !in left ==> !Open(c, actor, a, now)
      decreases left
    {
      var a :| a in left;
      left := left - {a};
      assert AssignLinked(c, c.assigns[a]);
      if c.assigns[a].series !in c.series { assert false; }
      CanReadSeriesDecides(c, Some(actor), c.series[c.assigns[a].series], now);
      var access := CanReadSeries(c, Some(actor), c.series[c.assigns[a].series], now);
      if access.Ok? { return true; }
      if access.error != Forbidden { assert false; }
    }
    found := false;
  }

  /**
    The search over the revisions that use an artifact.  Under the foreign keys its error exits are
    unreachable and its order does not matter: it decides the relation `MayDownload`.
  */
  method Artifact(c: Catalog, actor: Option<Actor>, id: Id, now: Time) returns (r: Result<Id, Error>)
    requires Linked(c)
    ensures r.Ok? <==> actor.Some? && MayDownload(c, actor.value, id, now)
    ensures r.Ok? ==> r.value == id
    ensures r.Err? ==> r.error == if actor.None? then Unauthorized else if id !in c.artifacts then NotFound else Forbidden
  {
    if actor.None? { return Err(Unauthorized); }
    if id !in c.artifacts { return Err(NotFound); }
    if actor.value.admin { return Ok(id); }
    var left := set r | r in c.revs && Uses(c.revs[r], id);
    while left != {}
      invariant left <= c.revs.Keys && forall r :: r in left ==> Uses(c.revs[r], id)
      invariant forall r :: r in c.revs && r !in left ==> !OwnsRevision(c, actor.value, r, id)
      invariant forall a :: a in c.assigns && c.assigns[a].revision !in left ==> !ShownBy(c, actor.value, a, id, now)
      decreases left
    {
      var rev :| rev in left;
      var doc := c.revs[rev];
      var manages := ManageProblem(c, actor, doc.problem);
      if manages.Ok? {
        assert OwnsRevision(c, actor.value, rev, id);
        return Ok(id);
      }
      if manages.error != Forbidden { assert false; }
      if doc.state.Published? && Shows(doc, id) {
        var found := ReadableAssignment(c, actor.value, rev, now);
        if found {
          ghost var a :| a in c.assigns && c.assigns[a].revision == rev && Open(c, actor.value, a, now);
          assert ShownBy(c, actor.value, a, id, now);
          return Ok(id);
        }
      }
      left := left - {rev};
    }
    r := Err(Forbidden);
  }

  /** Every PDF and every sample in a statement that a user gets can be downloaded by that user at that instant. */
  lemma StatementsCanBeDownloaded(c: Catalog, actor: Actor, a: Id, now: Time, s: Statement, id: Id)
    requires Linked(c) && Open(c, actor, a, now) && IsStatement(c, a, s) && Lists(s, id)
    ensures MayDownload(c, actor, id, now)
  {
  }

  /** A user who is no admin downloads only what a problem of theirs uses, or what a statement open to them lists. */
  lemma DownloadsAreOwnedOrListed(c: Catalog, actor: Actor, id: Id, now: Time) returns (a: Id)
    requires Linked(c) && MayDownload(c, actor, id, now) && !actor.admin && !Owns(c, actor, id)
    ensures Open(c, actor, a, now) && forall s :: IsStatement(c, a, s) ==> Lists(s, id)
  {
    a :| a in c.assigns && ShownBy(c, actor, a, id, now);
    forall s | IsStatement(c, a, s) ensures Lists(s, id) { ListsWhatIsShown(c, a, s, id); }
  }
}
