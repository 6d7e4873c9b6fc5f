/** Properties of one iteration of the inner loop (Visit) and of the inner loop
    over a page (PageRun). */
module PageProperties {
  import opened MigrationModel
  import opened Observation

  lemma ThenAssoc(a: Run, b: Run, c: Run)
    ensures Then(Then(a, b), c) == Then(a, Then(b, c))
  {
    if a.outcome == Returned && b.outcome == Returned {
      assert (a.events + b.events) + c.events == a.events + (b.events + c.events);
    }
  }

  /** Independent description of the inner loop over the kept projects `qs`:
      every project up to the first failing one is purged, migrated and purged
      again; the failing one is purged and its migration raises. */
  function Reference(w: World, qs: seq<Project>): Run {
    var k := FailIndex(w, qs);
    if k == |qs| then Run(Triples(w, qs), Returned)
    else Run(Triples(w, qs[..k]) + Attempt(w, qs[k]), Raised(FailureOf(w, qs[k])))
  }

  /** The inner loop over a page behaves as the reference description of the
      projects the skip rule keeps. */
  lemma {:induction false} PageRunClosedForm(w: World, ps: seq<Project>)
    ensures PageRun(w, ps) == Reference(w, Kept(ps))
  {
    if ps != [] {
      var p, rest := ps[0], Kept(ps[1..]);
      PageRunClosedForm(w, ps[1..]);
      assert Kept(ps) == (if Skipped(p) then [] else [p]) + rest;
      if Skipped(p) {
        assert Kept(ps) == rest;
        assert [] + PageRun(w, ps[1..]).events == PageRun(w, ps[1..]).events;
      } else {
        ReferenceCons(w, p, rest);
      }
    }
  }

  lemma ReferenceCons(w: World, p: Project, rest: seq<Project>)
    requires !Skipped(p)
    ensures Reference(w, [p] + rest) == Then(Visit(w, p), Reference(w, rest))
  {
    var qs := [p] + rest;
    assert qs[0] == p && qs[1..] == rest;
    if Fails(w, p) {
      assert FailIndex(w, qs) == 0;
      assert qs[..0] == [];
      assert Triples(w, qs[..0]) == [];
    } else {
      assert Visit(w, p) == Run(Triple(w, p), Returned);
      var k := FailIndex(w, rest);
      assert FailIndex(w, qs) == 1 + k;
      assert qs[..k + 1][0] == p;
      assert qs[..k + 1][1..] == rest[..k];
      assert Triples(w, qs[..k + 1]) == Triple(w, p) + Triples(w, rest[..k]);
      if k == |rest| {
        assert qs[..k + 1] == qs;
        assert rest[..k] == rest;
      } else {
        assert qs[k + 1] == rest[k];
        assert Triple(w, p) + (Triples(w, rest[..k]) + Attempt(w, rest[k]))
            == (Triple(w, p) + Triples(w, rest[..k])) + Attempt(w, rest[k]);
      }
    }
  }

  /** Splitting a page splits its run. */
  lemma {:induction false} PageRunConcat(w: World, a: seq<Project>, b: seq<Project>)
    ensures PageRun(w, a + b) == Then(PageRun(w, a), PageRun(w, b))
  {
    if a == [] {
      assert a + b == b;
    } else {
      assert (a + b)[0] == a[0];
      assert (a + b)[1..] == a[1..] + b;
      PageRunConcat(w, a[1..], b);
      ThenAssoc(Visit(w, a[0]), PageRun(w, a[1..]), PageRun(w, b));
    }
  }

  /** A page's run consists of purge and migration events only. */
  lemma {:induction false} PageEventsAreProjectEvents(w: World, ps: seq<Project>)
    ensures forall e :: e in PageRun(w, ps).events ==> KindOf(e) == ProjectKind
  {
    if ps != [] {
      PageEventsAreProjectEvents(w, ps[1..]);
    }
  }

  lemma {:induction false} SelectAll(s: seq<Event>, k: Kind)
    requires forall e :: e in s ==> KindOf(e) == k
    ensures Select(s, k) == s
  {
    if s != [] {
      assert s[0] in s;
      assert forall e :: e in s[1..] ==> e in s;
      SelectAll(s[1..], k);
      assert s == [s[0]] + s[1..];
    }
  }

  lemma {:induction false} SelectNone(s: seq<Event>, k: Kind)
    requires forall e :: e in s ==> KindOf(e) != k
    ensures Select(s, k) == []
  {
    if s != [] {
      assert s[0] in s;
      assert forall e :: e in s[1..] ==> e in s;
      SelectNone(s[1..], k);
    }
  }

  // ---------------------------------------------------------------------
  // Shape of traces: purge-migrate-purge adjacency and fail-fast endings

  predicate IsPurgeOf(e: Event, p: Project) {
    e.Purged? && e.project == p
  }

  predicate FailedMigration(e: Event) {
    e.Migrated? && e.status != Executed
  }

  /** Every successful migration is immediately preceded and immediately
      followed by a purge of the same project. */
  ghost predicate Bracketed(s: seq<Event>) {
    forall i :: 0 <= i < |s| && s[i].Migrated? && s[i].status == Executed ==>
      0 < i < |s| - 1 && IsPurgeOf(s[i - 1], s[i].project) && IsPurgeOf(s[i + 1], s[i].project)
  }

  ghost predicate Clean(s: seq<Event>) {
    forall i :: 0 <= i < |s| ==> !FailedMigration(s[i])
  }

  function StatusOf(f: Failure): Status {
    if f.LookupFailure? then LookupFailed else ExecuteFailed
  }

  predicate ProjectFailure(o: Outcome) {
    o.Raised? && !o.failure.CountFailure?
  }

  /** A run whose migration of project p raised ends with p's pre-purge and
      the failed migration, and nothing failed earlier; any other run contains
      no failed migration at all. */
  ghost predicate Good(r: Run) {
    Bracketed(r.events) &&
    if ProjectFailure(r.outcome) then
      var s, p := r.events, r.outcome.failure.project;
      |s| >= 2 && s[|s| - 1] == Migrated(p, StatusOf(r.outcome.failure)) &&
      IsPurgeOf(s[|s| - 2], p) && Clean(s[..|s| - 1])
    else
      Clean(r.events)
  }

  lemma BracketedConcat(a: seq<Event>, b: seq<Event>)
    requires Bracketed(a) && Bracketed(b)
    ensures Bracketed(a + b)
  {
    var s := a + b;
    forall i | 0 <= i < |s| && s[i].Migrated? && s[i].status == Executed
      ensures 0 < i < |s| - 1 && IsPurgeOf(s[i - 1], s[i].project) && IsPurgeOf(s[i + 1], s[i].project)
    {
      if i < |a| {
        assert s[i] == a[i];
        assert s[i - 1] == a[i - 1] && s[i + 1] == a[i + 1];
      } else {
        assert s[i] == b[i - |a|];
        assert s[i - 1] == b[i - 1 - |a|] && s[i + 1] == b[i + 1 - |a|];
      }
    }
  }

  lemma CleanConcat(a: seq<Event>, b: seq<Event>)
    requires Clean(a) && Clean(b)
    ensures Clean(a + b)
  {
    forall i | 0 <= i < |a + b| ensures !FailedMigration((a + b)[i]) {
      if i < |a| { assert (a + b)[i] == a[i]; } else { assert (a + b)[i] == b[i - |a|]; }
    }
  }

  lemma ThenGood(a: Run, b: Run)
    requires Good(a) && Good(b)
    ensures Good(Then(a, b))
  {
    if a.outcome == Returned {
      var s := a.events + b.events;
      BracketedConcat(a.events, b.events);
      if ProjectFailure(b.outcome) {
        var t := b.events;
        assert s[|s| - 1] == t[|t| - 1] && s[|s| - 2] == t[|t| - 2];
        assert s[..|s| - 1] == a.events + t[..|t| - 1];
        CleanConcat(a.events, t[..|t| - 1]);
      } else {
        CleanConcat(a.events, b.events);
      }
    }
  }

  lemma VisitGood(w: World, p: Project)
    ensures Good(Visit(w, p))
  {
  }

  lemma {:induction false} PageGood(w: World, ps: seq<Project>)
    ensures Good(PageRun(w, ps))
    decreases |ps|
  {
    if ps != [] {
      VisitGood(w, ps[0]);
      PageGood(w, ps[1..]);
      ThenGood(Visit(w, ps[0]), PageRun(w, ps[1..]));
    }
  }

  // ---------------------------------------------------------------------
  // Cache failures change nothing but the purge results

  /** Two worlds that differ at most in which cache purges fail. */
  predicate SameButCache(w1: World, w2: World) {
    w1.(purgeFails := w2.purgeFails) == w2
  }

  /** Two runs that agree except for purge results. */
  predicate Alike(r1: Run, r2: Run) {
    r1.outcome == r2.outcome && Erase(r1.events) == Erase(r2.events)
  }

  lemma ThenAlike(a1: Run, a2: Run, b1: Run, b2: Run)
    requires Alike(a1, a2) && Alike(b1, b2)
    ensures Alike(Then(a1, b1), Then(a2, b2))
  {
    if a1.outcome == Returned {
      EraseConcat(a1.events, b1.events);
      EraseConcat(a2.events, b2.events);
    }
  }

  lemma VisitAlike(w1: World, w2: World, p: Project)
    requires SameButCache(w1, w2)
    ensures Alike(Visit(w1, p), Visit(w2, p))
  {
    var e1, e2 := Visit(w1, p).events, Visit(w2, p).events;
    assert |Erase(e1)| == |Erase(e2)|;
    forall i | 0 <= i < |e1| ensures Erase(e1)[i] == Erase(e2)[i] {
    }
  }

  lemma {:induction false} PageAlike(w1: World, w2: World, ps: seq<Project>)
    requires SameButCache(w1, w2)
    ensures Alike(PageRun(w1, ps), PageRun(w2, ps))
    decreases |ps|
  {
    if ps != [] {
      VisitAlike(w1, w2, ps[0]);
      PageAlike(w1, w2, ps[1..]);
      ThenAlike(Visit(w1, ps[0]), Visit(w2, ps[0]), PageRun(w1, ps[1..]), PageRun(w2, ps[1..]));
    }
  }
}
