/**
  The limiter of authentication attempts (`allowAuthAttempt` in internal/server/handlers.go): two
  fixed-window buckets for each attempt, one by source address and one by normalised email,
  under one mutex.  Times are nanoseconds since the zero time.
*/
module Limiter {
  import opened Base

  const LIMIT := 10
  const WINDOW := 60_000_000_000
  const CAPACITY := 10000

  datatype Attempt = Attempt(count: int, start: Time)

  type Table = map<string, Attempt>

  /** Splitting the address and normalising the email have been done. */
  datatype Call = Call(host: string, email: string, now: Time)

  function AddressKey(c: Call): string { "ip:" + c.host }

  function EmailKey(c: Call): string { "email:" + c.email }

  lemma KeysDiffer(c: Call)
    ensures AddressKey(c) != EmailKey(c)
  {
    assert AddressKey(c)[0] == 'i' && EmailKey(c)[0] == 'e';
  }

  predicate Concerns(c: Call, key: string) {
    key == AddressKey(c) || key == EmailKey(c)
  }

  // ----- one attempt -----

  predicate Stale(a: Attempt, now: Time) {
    now - a.start >= WINDOW
  }

  function Purged(m: Table, now: Time): Table {
    map k | k in m && !Stale(m[k], now) :: m[k]
  }

  function Used(m: Table, key: string): int {
    if key in m then m[key].count else 0
  }

  /** Both buckets have room, and the table is not over capacity. */
  predicate Admits(m: Table, c: Call) {
    var p := Purged(m, c.now);
    |p| <= CAPACITY && Used(p, AddressKey(c)) < LIMIT && Used(p, EmailKey(c)) < LIMIT
  }

  function Bumped(m: Table, key: string, now: Time): Attempt {
    if key in m then m[key].(count := m[key].count + 1) else Attempt(1, now)
  }

  /** The table after an attempt: counted in both buckets, or in neither. */
  function Next(m: Table, c: Call): Table {
    var p := Purged(m, c.now);
    if Admits(m, c)
    then p[AddressKey(c) := Bumped(p, AddressKey(c), c.now)][EmailKey(c) := Bumped(p, EmailKey(c), c.now)]
    else p
  }

  /** Every bucket has counted 1 to 10 attempts, and the table holds at most 10002. */
  predicate Sane(m: Table) {
    |m| <= CAPACITY + 2 && forall k :: k in m ==> 1 <= m[k].count <= LIMIT && m[k].start > 0
  }

  // ----- what an attempt does, on the table -----

  predicate Recent(m: Table, key: string, now: Time) {
    key in m && now - m[key].start < 60_000_000_000
  }

  predicate Full(m: Table, key: string, now: Time) {
    Recent(m, key, now) && m[key].count >= 10
  }

  /** An attempt is let through when neither its address nor its email is full and the table is not too large. */
  predicate LetThrough(m: Table, c: Call) {
    && |set k | k in m && Recent(m, k, c.now)| <= 10_000
    && !Full(m, "ip:" + c.host, c.now) && !Full(m, "email:" + c.email, c.now)
  }

  /** One more attempt in the bucket, or the first of a new one. */
  predicate OneMore(m: Table, m': Table, key: string, now: Time) {
    key in m' && m'[key] == if Recent(m, key, now) then Attempt(m[key].count + 1, m[key].start) else Attempt(1, now)
  }

  /** The bucket is as it was, or has gone with its minute. */
  predicate AsBefore(m: Table, m': Table, key: string, now: Time) {
    (key in m' <==> Recent(m, key, now)) && (key in m' ==> key in m && m'[key] == m[key])
  }

  /** An attempt that is let through counts in its two buckets, and in no other. */
  ghost predicate Counts(m: Table, m': Table, c: Call) {
    && (LetThrough(m, c) ==> OneMore(m, m', "ip:" + c.host, c.now) && OneMore(m, m', "email:" + c.email, c.now))
    && forall key: string :: !LetThrough(m, c) || (key != "ip:" + c.host && key != "email:" + c.email) ==> AsBefore(m, m', key, c.now)
  }

  lemma {:induction false} AdmitsLetsThrough(m: Table, c: Call)
    ensures Admits(m, c) <==> LetThrough(m, c)
    ensures Counts(m, Next(m, c), c)
  {
    KeysDiffer(c);
    var p := Purged(m, c.now);
    assert p.Keys == set k | k in m && Recent(m, k, c.now);
    assert |p| == |p.Keys|;
  }

  class Limiter {
    var attempts: Table

    constructor ()
      ensures attempts == map[] && Sane(attempts)
    {
      attempts := map[];
    }

    /** The bucket as an attempt sees it: a missing or a stale one starts afresh. */
    function Bucket(key: string, now: Time): Attempt
      reads this
    {
      var attempt := if key in attempts then attempts[key] else Attempt(0, 0);
      if attempt.start == 0 || now - attempt.start >= WINDOW then Attempt(0, now) else attempt
    }

    method Purge(now: Time)
      modifies this
      ensures attempts == Purged(old(attempts), now)
    {
      var all := attempts;
      var left := attempts.Keys;
      while left != {}
        invariant left <= all.Keys
        invariant forall k :: k in attempts <==> k in all && (k in left || !Stale(all[k], now))
        invariant forall k :: k in attempts ==> attempts[k] == all[k]
        decreases left
      {
        var key :| key in left;
        left := left - {key};
        if Stale(all[key], now) { attempts := attempts - {key}; }
      }
    }

    /** The mutex is held throughout; `now` was read before, so it may lie before an earlier one. */
    method Allow(c: Call) returns (ok: bool)
      requires Sane(attempts) && c.now > 0
      modifies this
      ensures ok <==> LetThrough(old(attempts), c)
      ensures Counts(old(attempts), attempts, c)
      ensures ok <==> Admits(old(attempts), c)
      ensures attempts == Next(old(attempts), c)
      ensures Sane(attempts)
    {
      hide LetThrough, Counts, Sane;
      KeysDiffer(c);
      AdmitsLetsThrough(attempts, c);
      Purge(c.now);
      ghost var p := attempts;
      PurgedSane(old(attempts), c.now);
      NextSane(old(attempts), c);
      if |attempts| > CAPACITY { return false; }
      var keys := [AddressKey(c), EmailKey(c)];
      for i := 0 to |keys|
        invariant attempts == p
        invariant forall j :: 0 <= j < i ==> Used(p, keys[j]) < LIMIT
      {
        if Bucket(keys[i], c.now).count >= LIMIT { return false; }
      }
      for i := 0 to |keys|
        invariant i == 0 ==> attempts == p
        invariant i == 1 ==> attempts == p[keys[0] := Bumped(p, keys[0], c.now)]
        invariant i == 2 ==> attempts == p[keys[0] := Bumped(p, keys[0], c.now)][keys[1] := Bumped(p, keys[1], c.now)]
      {
        var attempt := Bucket(keys[i], c.now);
        attempts := attempts[keys[i] := attempt.(count := attempt.count + 1)];
      }
      ok := true;
    }
  }

  lemma PurgedSane(m: Table, now: Time)
    requires Sane(m)
    ensures Sane(Purged(m, now))
  {
    SubsetCount(Purged(m, now).Keys, m.Keys);
    assert |Purged(m, now).Keys| == |Purged(m, now)| && |m.Keys| == |m|;
  }

  lemma OneMoreKey(m: Table, key: string, a: Attempt)
    ensures |m[key := a]| <= |m| + 1
  {
  }

  /** The bounds need no order on the times. */
  lemma NextSane(m: Table, c: Call)
    requires Sane(m) && c.now > 0
    ensures Sane(Next(m, c))
  {
    PurgedSane(m, c.now);
    var p := Purged(m, c.now);
    var q := p[AddressKey(c) := Bumped(p, AddressKey(c), c.now)];
    OneMoreKey(p, AddressKey(c), Bumped(p, AddressKey(c), c.now));
    OneMoreKey(q, EmailKey(c), Bumped(p, EmailKey(c), c.now));
  }

  /** A refused attempt changes no count and no start of any bucket that is still open. */
  lemma RefusalChangesNothing(m: Table, c: Call, key: string)
    requires !Admits(m, c) && key in m
    ensures key in Next(m, c) <==> c.now - m[key].start < WINDOW
    ensures key in Next(m, c) ==> Next(m, c)[key] == m[key]
  {
  }

  // ----- runs -----

  ghost function After(calls: seq<Call>): Table {
    if calls == [] then map[] else Next(After(calls[..|calls| - 1]), calls[|calls| - 1])
  }

  lemma {:induction false} AlwaysSane(calls: seq<Call>)
    requires forall i :: 0 <= i < |calls| ==> calls[i].now > 0
    ensures Sane(After(calls))
  {
    if calls != [] {
      AlwaysSane(calls[..|calls| - 1]);
      NextSane(After(calls[..|calls| - 1]), calls[|calls| - 1]);
    }
  }

  ghost predicate Ordered(calls: seq<Call>) {
    forall i, j :: 0 <= i < j < |calls| ==> calls[i].now <= calls[j].now
  }

  /** How often the key is admitted at times from `from` on and before `to`. */
  ghost function Admitted(calls: seq<Call>, key: string, from: Time, to: Time): nat {
    if calls == [] then 0
    else
      var init, c := calls[..|calls| - 1], calls[|calls| - 1];
      Admitted(init, key, from, to) +
      if Concerns(c, key) && from <= c.now < to && Admits(After(init), c) then 1 else 0
  }

  // ----- the rate, when attempts may be late -----

  /** No attempt is more than `d` earlier than one before it. */
  ghost predicate Late(calls: seq<Call>, d: nat) {
    forall i, j :: 0 <= i < j < |calls| ==> calls[i].now <= calls[j].now + d
  }

  /** The latest time of a run. */
  ghost function Latest(calls: seq<Call>): Time
    requires calls != []
  {
    var now := calls[|calls| - 1].now;
    if |calls| == 1 then now else var before := Latest(calls[..|calls| - 1]); if before > now then before else now
  }

  lemma {:induction false} LatestIsOne(calls: seq<Call>) returns (i: nat)
    requires calls != []
    ensures i < |calls| && Latest(calls) == calls[i].now
  {
    i := |calls| - 1;
    if |calls| > 1 && Latest(calls) != calls[i].now { i := LatestIsOne(calls[..|calls| - 1]); }
  }

  lemma {:induction false} LatestIsNear(calls: seq<Call>, d: nat)
    requires calls != [] && Late(calls, d)
    ensures calls[|calls| - 1].now <= Latest(calls) <= calls[|calls| - 1].now + d
  {
    var i := LatestIsOne(calls);
  }

  /** The key has the window that starts at `s`, or that window has gone and any later one starts well after it. */
  ghost predicate Follows(m: Table, key: string, s: Time, latest: Time, d: nat) {
    || (key in m && m[key].start == s)
    || (latest >= s + WINDOW && (key in m ==> m[key].start >= s + WINDOW - d))
  }

  lemma {:induction false} WindowFollows(calls: seq<Call>, more: seq<Call>, key: string, d: nat)
    requires calls != [] && Late(calls + more, d) && key in After(calls)
    ensures Follows(After(calls + more), key, After(calls)[key].start, Latest(calls + more), d)
    decreases |more|
  {
    if more == [] {
      assert calls + more == calls;
    } else {
      var init := calls + more[..|more| - 1];
      assert (calls + more)[..|calls + more| - 1] == init;
      WindowFollows(calls, more[..|more| - 1], key, d);
      LatestIsNear(calls + more, d);
    }
  }

  /** Two windows of a key start at least `WINDOW - d` apart. */
  lemma {:induction false} WindowsApart(calls: seq<Call>, more: seq<Call>, key: string, d: nat)
    requires calls != [] && Late(calls + more, d) && key in After(calls) && key in After(calls + more)
    ensures After(calls + more)[key].start != After(calls)[key].start ==>
      After(calls + more)[key].start >= After(calls)[key].start + WINDOW - d
  {
    WindowFollows(calls, more, key, d);
  }

  /** Where the j-th window of a key that counts admissions from `from` on must have started, at the earliest. */
  function Earliest(from: Time, d: nat, j: nat): Time {
    from - WINDOW + j * (WINDOW - d)
  }

  lemma EarliestNext(from: Time, d: nat, j: nat)
    ensures Earliest(from, d, j + 1) == Earliest(from, d, j) + WINDOW - d
  {
    assert (j + 1) * (WINDOW - d) == j * (WINDOW - d) + (WINDOW - d);
  }

  /**
    What the open bucket of a key says about the `n` admissions since `from`: `j` windows before it have
    counted some of them, and each window starts at least `WINDOW - d` after the one before.
  */
  ghost predicate Tallied(m: Table, key: string, from: Time, latest: Time, d: nat, n: nat, j: nat) {
    && (key in m ==> m[key].start <= latest && 1 <= m[key].count <= LIMIT)
    && (n > 0 ==>
          if key in m then n <= 10 * j + m[key].count - 1 && m[key].start >= Earliest(from, d, j)
          else n <= 10 * j - 1 && latest - d >= Earliest(from, d, j))
  }

  lemma {:induction false} PurgeTallied(
    m: Table, key: string, from: Time, latest: Time, d: nat, n: nat, j: nat, now: Time, later: Time) returns (j': nat)
    requires Tallied(m, key, from, latest, d, n, j) && latest <= later && now <= later
    ensures Tallied(Purged(m, now), key, from, later, d, n, j')
  {
    j' := j;
    if key in m && Stale(m[key], now) {
      j' := j + 1;
      EarliestNext(from, d, j);
    }
  }

  lemma {:induction false} AdmitTallied(m: Table, c: Call, key: string, from: Time, to: Time, latest: Time, d: nat, n: nat, j: nat)
    returns (j': nat)
    requires Tallied(Purged(m, c.now), key, from, latest, d, n, j) && Admits(m, c) && d <= WINDOW
    requires c.now <= latest <= c.now + d
    ensures Tallied(Next(m, c), key, from, latest, d, n + if Concerns(c, key) && from <= c.now < to then 1 else 0, j')
  {
    KeysDiffer(c);
    j' := j;
    if Concerns(c, key) && n == 0 {
      j' := if key in Purged(m, c.now) then 0 else 1;
      EarliestNext(from, d, 0);
    }
  }

  lemma {:induction false} RunTallied(calls: seq<Call>, key: string, from: Time, to: Time, d: nat) returns (j: nat)
    requires calls != [] && Late(calls, d) && d <= WINDOW
    ensures Tallied(After(calls), key, from, Latest(calls), d, Admitted(calls, key, from, to), j)
  {
    var init, c := calls[..|calls| - 1], calls[|calls| - 1];
    var n := Admitted(init, key, from, to);
    j := 0;
    if init != [] {
      j := RunTallied(init, key, from, to, d);
      j := PurgeTallied(After(init), key, from, Latest(init), d, n, j, c.now, Latest(calls));
    }
    LatestIsNear(calls, d);
    if Admits(After(init), c) { j := AdmitTallied(After(init), c, key, from, to, Latest(calls), d, n, j); }
  }

  /**
    In runs with lateness up to `d` a key is admitted at most 10m - 1 times in a half-open interval, if m times
    `WINDOW - d` covers the interval, a window and the lateness.
  */
  lemma {:induction false} LateRateBound(calls: seq<Call>, key: string, from: Time, to: Time, d: nat, m: nat)
    requires Late(calls, d) && d < WINDOW && m > 0 && to - from + WINDOW + d <= m * (WINDOW - d)
    ensures Admitted(calls, key, from, to) <= 10 * m - 1
  {
    if calls != [] {
      var init, c := calls[..|calls| - 1], calls[|calls| - 1];
      LateRateBound(init, key, from, to, d, m);
      if Admitted(calls, key, from, to) > Admitted(init, key, from, to) {
        var j := RunTallied(calls, key, from, to, d);
        LatestIsNear(calls, d);
        FewWindows(After(calls)[key].start, from, to, d, j, m);
      }
    }
  }

  /** A window that can still admit before `to` is among the first m. */
  lemma {:induction false} FewWindows(start: Time, from: Time, to: Time, d: nat, j: nat, m: nat)
    requires d < WINDOW && Earliest(from, d, j) <= start < to + d && to - from + WINDOW + d <= m * (WINDOW - d)
    ensures j < m
  {
    assert j >= m ==> j * (WINDOW - d) >= m * (WINDOW - d);
  }

  /**
    With nondecreasing times a key is admitted at most 10k + 9 times in any half-open interval of
    k minutes: nine more in a window that was open before, and ten in each of k windows.
  */
  lemma {:induction false} RateBound(calls: seq<Call>, key: string, from: Time, k: nat)
    requires Ordered(calls)
    ensures Admitted(calls, key, from, from + k * WINDOW) <= 10 * k + 9
  {
    LateRateBound(calls, key, from, from + k * WINDOW, 0, k + 1);
  }

  // ----- one address, one account -----

  /** How often attempts on this email are admitted at times from `from` on and before `to`, from whatever address. */
  ghost function AdmittedFor(calls: seq<Call>, email: string, from: Time, to: Time): nat {
    if calls == [] then 0
    else
      var init, c := calls[..|calls| - 1], calls[|calls| - 1];
      AdmittedFor(init, email, from, to) +
      if c.email == email && from <= c.now < to && LetThrough(After(init), c) then 1 else 0
  }

  /** How often attempts from this address are admitted, on whatever email. */
  ghost function AdmittedFrom(calls: seq<Call>, host: string, from: Time, to: Time): nat {
    if calls == [] then 0
    else
      var init, c := calls[..|calls| - 1], calls[|calls| - 1];
      AdmittedFrom(init, host, from, to) +
      if c.host == host && from <= c.now < to && LetThrough(After(init), c) then 1 else 0
  }

  lemma {:induction false} ConcernsEmail(c: Call, email: string)
    ensures Concerns(c, "email:" + email) <==> c.email == email
  {
    assert AddressKey(c)[0] == 'i' && ("email:" + email)[0] == 'e';
    assert ("email:" + email)[6..] == email && ("email:" + c.email)[6..] == c.email;
  }

  lemma {:induction false} ConcernsHost(c: Call, host: string)
    ensures Concerns(c, "ip:" + host) <==> c.host == host
  {
    assert EmailKey(c)[0] == 'e' && ("ip:" + host)[0] == 'i';
    assert ("ip:" + host)[3..] == host && ("ip:" + c.host)[3..] == c.host;
  }

  lemma {:induction false} AdmittedForIs(calls: seq<Call>, email: string, from: Time, to: Time)
    ensures AdmittedFor(calls, email, from, to) == Admitted(calls, "email:" + email, from, to)
  {
    if calls != [] {
      var init, c := calls[..|calls| - 1], calls[|calls| - 1];
      AdmittedForIs(init, email, from, to);
      ConcernsEmail(c, email);
      AdmitsLetsThrough(After(init), c);
    }
  }

  lemma {:induction false} AdmittedFromIs(calls: seq<Call>, host: string, from: Time, to: Time)
    ensures AdmittedFrom(calls, host, from, to) == Admitted(calls, "ip:" + host, from, to)
  {
    if calls != [] {
      var init, c := calls[..|calls| - 1], calls[|calls| - 1];
      AdmittedFromIs(init, host, from, to);
      ConcernsHost(c, host);
      AdmitsLetsThrough(After(init), c);
    }
  }

  /** Whatever addresses the attempts come from, one account is tried at most 10k + 9 times in k minutes. */
  lemma {:induction false} AccountBound(calls: seq<Call>, email: string, from: Time, k: nat)
    requires forall i, j :: 0 <= i < j < |calls| ==> calls[i].now <= calls[j].now
    ensures AdmittedFor(calls, email, from, from + k * 60_000_000_000) <= 10 * k + 9
  {
    AdmittedForIs(calls, email, from, from + k * 60_000_000_000);
    RateBound(calls, "email:" + email, from, k);
  }

  /** Whatever accounts it tries, one address gets at most 10k + 9 attempts in k minutes. */
  lemma {:induction false} AddressBound(calls: seq<Call>, host: string, from: Time, k: nat)
    requires forall i, j :: 0 <= i < j < |calls| ==> calls[i].now <= calls[j].now
    ensures AdmittedFrom(calls, host, from, from + k * 60_000_000_000) <= 10 * k + 9
  {
    AdmittedFromIs(calls, host, from, from + k * 60_000_000_000);
    RateBound(calls, "ip:" + host, from, k);
  }

  /** Attempts that share neither address nor email leave each other's buckets alone. */
  lemma {:induction false} StrangersKeepApart(m: Table, c: Call, d: Call)
    requires c.host != d.host && c.email != d.email
    ensures AsBefore(m, Next(m, c), "ip:" + d.host, c.now) && AsBefore(m, Next(m, c), "email:" + d.email, c.now)
  {
    AdmitsLetsThrough(m, c);
    ConcernsHost(c, d.host);
    ConcernsEmail(c, d.email);
    assert AddressKey(c) == "ip:" + c.host && EmailKey(c) == "email:" + c.email;
  }

  // ----- the rate bound needs the order -----

  /** What the rate bound says of one run. */
  ghost predicate Bounded(calls: seq<Call>) {
    forall key: string, from: Time, k: nat :: Within(calls, key, from, k)
  }

  ghost predicate Within(calls: seq<Call>, key: string, from: Time, k: nat) {
    Admitted(calls, key, from, from + k * WINDOW) <= 10 * k + 9
  }

  /** Both buckets of a client are the same, or it has none. */
  predicate Has(m: Table, c: Call, a: Option<Attempt>) {
    if a.None? then AddressKey(c) !in m && EmailKey(c) !in m
    else AddressKey(c) in m && m[AddressKey(c)] == a.value && EmailKey(c) in m && m[EmailKey(c)] == a.value
  }

  function Live(a: Option<Attempt>, now: Time): Option<Attempt> {
    if a.Some? && !Stale(a.value, now) then a else None
  }

  function CountOf(a: Option<Attempt>): int {
    if a.Some? then a.value.count else 0
  }

  function Counted(a: Option<Attempt>, n: int, now: Time): Option<Attempt> {
    Some(if a.Some? then a.value.(count := a.value.count + n) else Attempt(n, now))
  }

  lemma {:induction false} OwnNext(m: Table, c: Call, a: Option<Attempt>)
    requires Has(m, c, a) && |m| <= CAPACITY && CountOf(Live(a, c.now)) < LIMIT
    ensures Admits(m, c) && Has(Next(m, c), c, Counted(Live(a, c.now), 1, c.now))
  {
    KeysDiffer(c);
    SubsetCount(Purged(m, c.now).Keys, m.Keys);
    assert |Purged(m, c.now).Keys| == |Purged(m, c.now)| && |m.Keys| == |m|;
  }

  predicate Strangers(c: Call, d: Call) {
    !Concerns(c, AddressKey(d)) && !Concerns(c, EmailKey(d))
  }

  lemma {:induction false} StrangerNext(m: Table, c: Call, d: Call, b: Option<Attempt>)
    requires Has(m, d, b) && Strangers(c, d)
    ensures Has(Next(m, c), d, Live(b, c.now))
  {
  }

  lemma {:induction false} AfterSize(calls: seq<Call>)
    ensures |After(calls)| <= 2 * |calls|
  {
    if calls != [] {
      var init, c := calls[..|calls| - 1], calls[|calls| - 1];
      AfterSize(init);
      var m := After(init);
      var p := Purged(m, c.now);
      SubsetCount(p.Keys, m.Keys);
      assert |p.Keys| == |p| && |m.Keys| == |m|;
      OneMoreKey(p, AddressKey(c), Bumped(p, AddressKey(c), c.now));
      OneMoreKey(p[AddressKey(c) := Bumped(p, AddressKey(c), c.now)], EmailKey(c), Bumped(p, EmailKey(c), c.now));
    }
  }

  // ----- a run with attempts that are one nanosecond late -----

  function Ann(now: Time): Call { Call("a", "a", now) }

  function Bob(now: Time): Call { Call("b", "b", now) }

  const ANN := "ip:a"

  lemma {:induction false} AnnAndBob(s: Time, t: Time)
    ensures AddressKey(Ann(s)) == ANN && Strangers(Ann(s), Bob(t)) && Strangers(Bob(t), Ann(s))
    ensures !Concerns(Bob(t), ANN) && Concerns(Ann(s), ANN)
  {
    assert AddressKey(Ann(s))[3] == 'a' && AddressKey(Bob(t))[3] == 'b';
    assert EmailKey(Ann(s))[6] == 'a' && EmailKey(Bob(t))[6] == 'b';
    assert AddressKey(Ann(s))[0] == 'i' && EmailKey(Bob(t))[0] == 'e' && EmailKey(Ann(s))[0] == 'e' && AddressKey(Bob(t))[0] == 'i';
  }

  /** So many attempts of one client at one instant. */
  function Times(c: Call, n: nat): seq<Call> {
    seq(n, _ => c)
  }

  /** The buckets of Ann and Bob after a run, and how often Ann was admitted in the interval. */
  ghost predicate Stands(calls: seq<Call>, a: Option<Attempt>, b: Option<Attempt>, from: Time, to: Time, n: nat) {
    Has(After(calls), Ann(0), a) && Has(After(calls), Bob(0), b) && Admitted(calls, ANN, from, to) == n
  }

  lemma {:induction false} Last(calls: seq<Call>, c: Call)
    ensures (calls + [c])[..|calls + [c]| - 1] == calls && (calls + [c])[|calls + [c]| - 1] == c
  {
  }

  lemma {:induction false} AnnTries(
    calls: seq<Call>, now: Time, a: Option<Attempt>, b: Option<Attempt>, from: Time, to: Time, n: nat)
    requires Stands(calls, a, b, from, to, n) && CountOf(Live(a, now)) < LIMIT && 2 * |calls| <= CAPACITY
    ensures Stands(calls + [Ann(now)], Counted(Live(a, now), 1, now), Live(b, now), from, to, n + if from <= now < to then 1 else 0)
  {
    AfterSize(calls);
    AnnAndBob(now, 0);
    Last(calls, Ann(now));
    OwnNext(After(calls), Ann(now), a);
    StrangerNext(After(calls), Ann(now), Bob(0), b);
  }

  lemma {:induction false} BobTries(
    calls: seq<Call>, now: Time, a: Option<Attempt>, b: Option<Attempt>, from: Time, to: Time, n: nat)
    requires Stands(calls, a, b, from, to, n) && CountOf(Live(b, now)) < LIMIT && 2 * |calls| <= CAPACITY
    ensures Stands(calls + [Bob(now)], Live(a, now), Counted(Live(b, now), 1, now), from, to, n)
  {
    AfterSize(calls);
    AnnAndBob(0, now);
    Last(calls, Bob(now));
    OwnNext(After(calls), Bob(now), b);
    StrangerNext(After(calls), Bob(now), Ann(0), a);
  }

  lemma {:induction false} AnnTriesOften(
    calls: seq<Call>, now: Time, times: nat, a: Option<Attempt>, b: Option<Attempt>, from: Time, to: Time, n: nat)
    requires Stands(calls, a, b, from, to, n) && Live(b, now) == b && from <= now < to && times > 0
    requires CountOf(Live(a, now)) + times <= LIMIT && 2 * (|calls| + times) <= CAPACITY
    ensures Stands(calls + Times(Ann(now), times), Counted(Live(a, now), times, now), b, from, to, n + times)
  {
    hide Stands;
    assert calls + Times(Ann(now), times) == calls + Times(Ann(now), times - 1) + [Ann(now)];
    if times == 1 {
      assert calls + Times(Ann(now), 0) == calls;
      AnnTries(calls, now, a, b, from, to, n);
    } else {
      AnnTriesOften(calls, now, times - 1, a, b, from, to, n);
      AnnTries(calls + Times(Ann(now), times - 1), now, Counted(Live(a, now), times - 1, now), b, from, to, n + times - 1);
    }
  }

  /** Twice an attempt of Bob's purges Ann's full bucket, one nanosecond before she reads an earlier clock. */
  const LATE: seq<Call> :=
    [Ann(1)] + Times(Ann(WINDOW), 9) + [Bob(WINDOW + 1)] + Times(Ann(WINDOW), 10) + [Bob(2 * WINDOW)] + Times(Ann(2 * WINDOW - 1), 10)

  /** Twenty-nine admissions within one minute, with attempts late by a single nanosecond: `LateRateBound` allows no more. */
  lemma {:induction false} LateAdmissions()
    ensures Admitted(LATE, ANN, WINDOW, 2 * WINDOW) == 29
  {
    assert Stands([], None, None, WINDOW, 2 * WINDOW, 0);
    AnnTries([], 1, None, None, WINDOW, 2 * WINDOW, 0);
    assert [] + [Ann(1)] == [Ann(1)];
    var c1 := [Ann(1)];
    AnnTriesOften(c1, WINDOW, 9, Some(Attempt(1, 1)), None, WINDOW, 2 * WINDOW, 0);
    var c2 := c1 + Times(Ann(WINDOW), 9);
    BobTries(c2, WINDOW + 1, Some(Attempt(10, 1)), None, WINDOW, 2 * WINDOW, 9);
    var c3 := c2 + [Bob(WINDOW + 1)];
    AnnTriesOften(c3, WINDOW, 10, None, Some(Attempt(1, WINDOW + 1)), WINDOW, 2 * WINDOW, 9);
    var c4 := c3 + Times(Ann(WINDOW), 10);
    BobTries(c4, 2 * WINDOW, Some(Attempt(10, WINDOW)), Some(Attempt(1, WINDOW + 1)), WINDOW, 2 * WINDOW, 19);
    var c5 := c4 + [Bob(2 * WINDOW)];
    AnnTriesOften(c5, 2 * WINDOW - 1, 10, None, Some(Attempt(2, WINDOW + 1)), WINDOW, 2 * WINDOW, 19);
  }

  /** The times of the run, attempt by attempt. */
  function LateAt(i: nat): Time {
    if i == 0 then 1
    else if i == 10 then WINDOW + 1
    else if i < 21 then WINDOW
    else if i == 21 then 2 * WINDOW
    else 2 * WINDOW - 1
  }

  lemma {:induction false} LateByOne()
    ensures Late(LATE, 1)
  {
    assert |LATE| == 32 && forall i :: 0 <= i < 32 ==> LATE[i].now == LateAt(i);
  }

  /**
    The exact condition for the rate bound: it holds of all runs in which no attempt is more than `d` behind
    one before it if and only if `d` is zero.  One nanosecond between reading the clock and taking the mutex breaks it.
  */
  lemma {:induction false} BoundNeedsOrder(d: nat)
    ensures (forall calls :: Late(calls, d) ==> Bounded(calls)) <==> d == 0
  {
    if d == 0 {
      forall calls | Late(calls, 0) ensures Bounded(calls) {
        forall key: string, from: Time, k: nat ensures Within(calls, key, from, k) { RateBound(calls, key, from, k); }
      }
    } else {
      LateByOne();
      LateAdmissions();
      assert Late(LATE, d) && !Within(LATE, ANN, WINDOW, 1);
    }
  }

  // ----- a window late -----

  /** Ann, and then Bob a whole window later, again and again. */
  function Rounds(n: nat): seq<Call> {
    if n == 0 then [] else Rounds(n - 1) + [Ann(WINDOW)] + [Bob(2 * WINDOW)]
  }

  /** The four keys of the two clients. */
  function Keys(): set<string> {
    {AddressKey(Ann(0)), EmailKey(Ann(0)), AddressKey(Bob(0)), EmailKey(Bob(0))}
  }

  lemma {:induction false} KeysKept(m: Table, c: Call)
    requires m.Keys <= Keys() && (c.host == c.email == "a" || c.host == c.email == "b")
    ensures Next(m, c).Keys <= Keys()
  {
  }

  lemma {:induction false} FewKeys(m: Table)
    requires m.Keys <= Keys()
    ensures |m| <= CAPACITY
  {
    SubsetCount(m.Keys, Keys());
    assert |m| == |m.Keys|;
  }

  /** Ann has the bucket `a`, nobody but the two clients has one, and Ann was admitted so often in the minute. */
  ghost predicate Between(calls: seq<Call>, a: Option<Attempt>, n: nat) {
    After(calls).Keys <= Keys() && Has(After(calls), Ann(0), a) && Admitted(calls, ANN, WINDOW, 2 * WINDOW) == n
  }

  lemma {:induction false} AnnAgain(calls: seq<Call>, n: nat)
    requires Between(calls, None, n)
    ensures Between(calls + [Ann(WINDOW)], Some(Attempt(1, WINDOW)), n + 1)
  {
    hide Keys, Next;
    var m := After(calls);
    AnnAndBob(WINDOW, 0);
    FewKeys(m);
    Last(calls, Ann(WINDOW));
    OwnNext(m, Ann(WINDOW), None);
    KeysKept(m, Ann(WINDOW));
  }

  lemma {:induction false} BobPurges(calls: seq<Call>, n: nat)
    requires Between(calls, Some(Attempt(1, WINDOW)), n)
    ensures Between(calls + [Bob(2 * WINDOW)], None, n)
  {
    hide Keys, Next;
    AnnAndBob(0, 2 * WINDOW);
    Last(calls, Bob(2 * WINDOW));
    StrangerNext(After(calls), Bob(2 * WINDOW), Ann(0), Some(Attempt(1, WINDOW)));
    KeysKept(After(calls), Bob(2 * WINDOW));
  }

  /** Every one of Ann's attempts is admitted, all at the same instant, since Bob's purge her bucket. */
  lemma {:induction false} RoundsAdmit(n: nat)
    ensures Between(Rounds(n), None, n)
  {
    if n > 0 {
      RoundsAdmit(n - 1);
      AnnAgain(Rounds(n - 1), n - 1);
      BobPurges(Rounds(n - 1) + [Ann(WINDOW)], n);
    }
  }

  lemma {:induction false} RoundsLate(n: nat)
    ensures forall c :: c in Rounds(n) ==> c.now == WINDOW || c.now == 2 * WINDOW
  {
    if n > 0 { RoundsLate(n - 1); }
  }

  ghost predicate AtMost(calls: seq<Call>, key: string, from: Time, b: nat) {
    Admitted(calls, key, from, from + WINDOW) <= b
  }

  /** No key is ever admitted more than `b` times in a minute. */
  ghost predicate Caps(b: nat, d: nat) {
    forall calls: seq<Call>, key: string, from: Time :: Late(calls, d) ==> AtMost(calls, key, from, b)
  }

  lemma {:induction false} EnoughWindows(d: nat) returns (m: nat)
    requires d < WINDOW
    ensures m > 0 && 2 * WINDOW + d <= m * (WINDOW - d)
  {
    m := 2 * WINDOW + d;
    var gap: nat := WINDOW - d - 1;
    assert m * (gap + 1) == m * gap + m && m * gap >= 0;
  }

  lemma {:induction false} CapsBelowAWindow(d: nat)
    requires d < WINDOW
    ensures exists b: nat :: Caps(b, d)
  {
    hide Late, Admitted;
    var m := EnoughWindows(d);
    var b := 10 * m - 1;
    forall calls: seq<Call>, key: string, from: Time | Late(calls, d) ensures AtMost(calls, key, from, b) {
      LateRateBound(calls, key, from, from + WINDOW, d, m);
    }
    assert Caps(b, d);
  }

  lemma {:induction false} NoCap(b: nat, d: nat)
    requires d >= WINDOW
    ensures !Caps(b, d)
  {
    RoundsAdmit(b + 1);
    RoundsLate(b + 1);
    assert Late(Rounds(b + 1), d) && !AtMost(Rounds(b + 1), ANN, WINDOW, b);
  }

  /** Some number of admissions in a minute is never exceeded if and only if the lateness is less than a window. */
  lemma {:induction false} LimitsUpToAWindow(d: nat)
    ensures (exists b: nat :: Caps(b, d)) <==> d < WINDOW
  {
    if d < WINDOW { CapsBelowAWindow(d); } else { forall b: nat ensures !Caps(b, d) { NoCap(b, d); } }
  }
}
