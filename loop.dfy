/** Properties of the outer (pagination) loop. The loop is first described
    for any state, then for the states it actually passes through: before its
    j-th iteration it holds page `Pending(w, j)`, offset `Limit * j` and
    processed count `Processed(w, j)`. */
module LoopProperties {
  import opened MigrationModel
  import opened Observation
  import opened PageProperties

  predicate LoopKind(k: Kind) {
    k == ProjectKind || k == FetchKind || k == ProgressKind
  }

  /** The loop emits only purge, migration, fetch and progress events. */
  lemma {:induction false} LoopEventKinds(w: World, page: seq<Project>, offset: nat, count: nat, total: nat)
    ensures forall e :: e in LoopRun(w, page, offset, count, total).events ==> LoopKind(KindOf(e))
    decreases Unfetched(|w.registry|, offset), |page|
  {
    if page != [] {
      var next := FetchPage(w.registry, offset, Limit);
      var run, later := PageRun(w, page), LoopRun(w, next, offset + Limit, count + |page|, total);
      var report := [Fetched(offset, Limit, |next|), Progress(count + |page|, total)];
      PageEventsAreProjectEvents(w, page);
      LoopEventKinds(w, next, offset + Limit, count + |page|, total);
      var s := LoopRun(w, page, offset, count, total).events;
      assert s == run.events || s == run.events + (report + later.events);
    }
  }

  /** Purge-migrate-purge adjacency and fail-fast endings hold for the loop. */
  lemma {:induction false} LoopGood(w: World, page: seq<Project>, offset: nat, count: nat, total: nat)
    ensures Good(LoopRun(w, page, offset, count, total))
    decreases Unfetched(|w.registry|, offset), |page|
  {
    if page != [] {
      var next := FetchPage(w.registry, offset, Limit);
      var reported := Run([Fetched(offset, Limit, |next|), Progress(count + |page|, total)], Returned);
      var later := LoopRun(w, next, offset + Limit, count + |page|, total);
      PageGood(w, page);
      LoopGood(w, next, offset + Limit, count + |page|, total);
      ThenGood(reported, later);
      ThenGood(PageRun(w, page), Then(reported, later));
    }
  }

  /** Cache failures change neither the loop's outcome nor any event but the
      purge results. */
  lemma {:induction false} LoopAlike(w1: World, w2: World, page: seq<Project>, offset: nat, count: nat, total: nat)
    requires SameButCache(w1, w2)
    ensures Alike(LoopRun(w1, page, offset, count, total), LoopRun(w2, page, offset, count, total))
    decreases Unfetched(|w1.registry|, offset), |page|
  {
    if page != [] {
      var next := FetchPage(w1.registry, offset, Limit);
      var reported := Run([Fetched(offset, Limit, |next|), Progress(count + |page|, total)], Returned);
      PageAlike(w1, w2, page);
      LoopAlike(w1, w2, next, offset + Limit, count + |page|, total);
      ThenAlike(reported, reported, LoopRun(w1, next, offset + Limit, count + |page|, total),
        LoopRun(w2, next, offset + Limit, count + |page|, total));
      ThenAlike(PageRun(w1, page), PageRun(w2, page),
        Then(reported, LoopRun(w1, next, offset + Limit, count + |page|, total)),
        Then(reported, LoopRun(w2, next, offset + Limit, count + |page|, total)));
    }
  }

  // ---------------------------------------------------------------------
  // The states the loop passes through

  /** Number of registry fetches of a complete run over `n` records: one per
      non-empty page, plus the final empty one. */
  function Fetches(n: nat): nat {
    (n + Limit - 1) / Limit + 1
  }

  /** The page processed in iteration j: the console first, then registry pages. */
  function Pending(w: World, j: nat): seq<Project> {
    if j == 0 then [w.console] else FetchPage(w.registry, Limit * (j - 1), Limit)
  }

  /** The processed count before iteration j. */
  function Processed(w: World, j: nat): nat {
    if j == 0 then 0 else 1 + Min(Limit * (j - 1), |w.registry|)
  }

  /** The projects iteration j and all later ones walk through. */
  function Remaining(w: World, j: nat): seq<Project> {
    if j == 0 then AllProjects(w) else w.registry[Min(Limit * (j - 1), |w.registry|)..]
  }

  function LoopFrom(w: World, j: nat, total: nat): Run {
    LoopRun(w, Pending(w, j), Limit * j, Processed(w, j), total)
  }

  /** The i-th registry fetch (counting from 0). */
  function FetchAt(w: World, i: nat): Event {
    Fetched(Limit * i, Limit, |FetchPage(w.registry, Limit * i, Limit)|)
  }

  /** The progress report after the i-th iteration (counting from 0). */
  function ProgressAt(w: World, i: nat, total: nat): Event {
    Progress(1 + Min(Limit * i, |w.registry|), total)
  }

  /** The registry fetches of iterations j, j + 1, … of a complete run. */
  function FetchSchedule(w: World, j: nat): seq<Event> {
    var n := if j >= Fetches(|w.registry|) then 0 else Fetches(|w.registry|) - j;
    seq(n, i requires 0 <= i < n => FetchAt(w, j + i))
  }

  /** The progress reports of iterations j, j + 1, … of a complete run. */
  function ProgressSchedule(w: World, j: nat, total: nat): seq<Event> {
    var n := if j >= Fetches(|w.registry|) then 0 else Fetches(|w.registry|) - j;
    seq(n, i requires 0 <= i < n => ProgressAt(w, j + i, total))
  }

  lemma FetchScheduleCons(w: World, j: nat)
    requires j < Fetches(|w.registry|)
    ensures FetchSchedule(w, j) == [FetchAt(w, j)] + FetchSchedule(w, j + 1)
  {
    var s, t := FetchSchedule(w, j), FetchSchedule(w, j + 1);
    assert |s| == 1 + |t|;
    forall i | 0 <= i < |s| ensures s[i] == ([FetchAt(w, j)] + t)[i] {
      if i > 0 {
        assert t[i - 1] == FetchAt(w, j + 1 + (i - 1));
      }
    }
  }

  lemma ProgressScheduleCons(w: World, j: nat, total: nat)
    requires j < Fetches(|w.registry|)
    ensures ProgressSchedule(w, j, total) == [ProgressAt(w, j, total)] + ProgressSchedule(w, j + 1, total)
  {
    var s, t := ProgressSchedule(w, j, total), ProgressSchedule(w, j + 1, total);
    assert |s| == 1 + |t|;
    forall i | 0 <= i < |s| ensures s[i] == ([ProgressAt(w, j, total)] + t)[i] {
      if i > 0 {
        assert t[i - 1] == ProgressAt(w, j + 1 + (i - 1), total);
      }
    }
  }

  /** The page of iteration j is empty exactly from iteration Fetches(n) on. */
  lemma PendingEmpty(w: World, j: nat)
    ensures Pending(w, j) == [] <==> j >= Fetches(|w.registry|)
  {
    var n := |w.registry|;
    var c := (n + Limit - 1) / Limit;
    assert Limit * c <= n + Limit - 1 < Limit * c + Limit;
    if j > 0 {
      if j - 1 >= c {
        assert Limit * (j - 1) >= Limit * c;
      } else {
        assert Limit * (j - 1) <= Limit * (c - 1);
      }
    }
  }

  /** One iteration of the loop, from state j to state j + 1. */
  lemma LoopStep(w: World, j: nat, total: nat)
    requires j < Fetches(|w.registry|)
    ensures Pending(w, j) != []
    ensures LoopFrom(w, j, total) ==
      Then(PageRun(w, Pending(w, j)),
        Then(Run([FetchAt(w, j), ProgressAt(w, j, total)], Returned), LoopFrom(w, j + 1, total)))
    ensures Remaining(w, j) == Pending(w, j) + Remaining(w, j + 1)
  {
    PendingEmpty(w, j);
    LoopFromStep(w, j, total);
    RemainingStep(w, j);
  }

  lemma LoopFromStep(w: World, j: nat, total: nat)
    requires Pending(w, j) != []
    ensures LoopFrom(w, j, total) ==
      Then(PageRun(w, Pending(w, j)),
        Then(Run([FetchAt(w, j), ProgressAt(w, j, total)], Returned), LoopFrom(w, j + 1, total)))
  {
    var page, offset, count := Pending(w, j), Limit * j, Processed(w, j);
    ProcessedStep(w, j);
    assert offset + Limit == Limit * (j + 1);
    assert FetchPage(w.registry, offset, Limit) == Pending(w, j + 1);
    assert ProgressAt(w, j, total) == Progress(count + |page|, total);
    LoopRunStep(w, page, offset, count, total);
  }

  /** The loop's definition, unfolded once. */
  lemma LoopRunStep(w: World, page: seq<Project>, offset: nat, count: nat, total: nat)
    requires page != []
    ensures var next := FetchPage(w.registry, offset, Limit);
      LoopRun(w, page, offset, count, total) ==
      Then(PageRun(w, page),
        Then(Run([Fetched(offset, Limit, |next|), Progress(count + |page|, total)], Returned),
          LoopRun(w, next, offset + Limit, count + |page|, total)))
  {
  }

  lemma ProcessedStep(w: World, j: nat)
    ensures Processed(w, j) + |Pending(w, j)| == Processed(w, j + 1)
  {
  }

  lemma RemainingStep(w: World, j: nat)
    ensures Remaining(w, j) == Pending(w, j) + Remaining(w, j + 1)
  {
    if j > 0 {
      var a, b := Min(Limit * (j - 1), |w.registry|), Min(Limit * j, |w.registry|);
      assert Pending(w, j) == w.registry[a..b];
      assert w.registry[a..] == w.registry[a..b] + w.registry[b..];
    }
  }

  lemma LoopEnd(w: World, total: nat)
    ensures Pending(w, Fetches(|w.registry|)) == []
    ensures Remaining(w, Fetches(|w.registry|)) == []
    ensures LoopFrom(w, Fetches(|w.registry|), total) == Run([], Returned)
  {
    PendingEmpty(w, Fetches(|w.registry|));
  }

  lemma SelectReport(f: Event, p: Event)
    requires f.Fetched? && p.Progress?
    ensures Select([f, p], ProjectKind) == []
    ensures Select([f, p], FetchKind) == [f]
    ensures Select([f, p], ProgressKind) == [p]
  {
    assert [f, p][1..] == [p];
    assert [p][1..] == [];
  }

  /** One iteration, seen through the purge and migration events only. */
  lemma TransparentStep(page: Run, report: seq<Event>, later: Run, rest: Run)
    requires Select(page.events, ProjectKind) == page.events
    requires Select(report, ProjectKind) == []
    requires page.outcome == Returned ==>
      Select(later.events, ProjectKind) == rest.events && later.outcome == rest.outcome
    ensures Select(Then(page, Then(Run(report, Returned), later)).events, ProjectKind) == Then(page, rest).events
    ensures Then(page, Then(Run(report, Returned), later)).outcome == Then(page, rest).outcome
  {
    if page.outcome == Returned {
      var tail := Then(Run(report, Returned), later);
      assert tail.events == report + later.events;
      SelectConcat(report, later.events, ProjectKind);
      assert Select(tail.events, ProjectKind) == rest.events;
      SelectConcat(page.events, tail.events, ProjectKind);
    }
  }

  /** One iteration `r`, seen through the fetch (or progress) events only. */
  lemma ScheduleStep(r: Run, page: Run, report: seq<Event>, later: Run, x: Event, sched: seq<Event>, k: Kind)
    requires r == Then(page, Then(Run(report, Returned), later))
    requires Select(page.events, k) == [] && Select(report, k) == [x]
    requires page.outcome == Returned ==>
      Select(later.events, k) <= sched && (later.outcome == Returned ==> Select(later.events, k) == sched)
    ensures Select(r.events, k) <= [x] + sched
    ensures r.outcome == Returned ==> Select(r.events, k) == [x] + sched
  {
    if page.outcome == Returned {
      var tail := Then(Run(report, Returned), later);
      assert tail.events == report + later.events;
      SelectConcat(report, later.events, k);
      SelectConcat(page.events, tail.events, k);
      PrefixCons(x, Select(later.events, k), sched);
    }
  }

  /** A run seen through its purge and migration events only. */
  function ProjectView(r: Run): Run {
    Run(Select(r.events, ProjectKind), r.outcome)
  }

  /** Pagination is transparent: from state j on, the loop purges and
      migrates exactly as the inner loop would over all remaining projects in
      one page, and ends the same way. */
  lemma {:induction false} LoopProjects(w: World, j: nat, total: nat)
    requires j <= Fetches(|w.registry|)
    ensures ProjectView(LoopFrom(w, j, total)) == PageRun(w, Remaining(w, j))
    decreases Fetches(|w.registry|) - j
  {
    if j < Fetches(|w.registry|) {
      LoopProjects(w, j + 1, total);
    }
    ProjectsStep(w, j, total);
  }

  lemma ProjectsStep(w: World, j: nat, total: nat)
    requires j <= Fetches(|w.registry|)
    requires j < Fetches(|w.registry|) ==> ProjectView(LoopFrom(w, j + 1, total)) == PageRun(w, Remaining(w, j + 1))
    ensures ProjectView(LoopFrom(w, j, total)) == PageRun(w, Remaining(w, j))
  {
    if j == Fetches(|w.registry|) {
      LoopEnd(w, total);
    } else {
      LoopStep(w, j, total);
      var page := PageRun(w, Pending(w, j));
      PageRunConcat(w, Pending(w, j), Remaining(w, j + 1));
      PageEventsAreProjectEvents(w, Pending(w, j));
      SelectAll(page.events, ProjectKind);
      SelectReport(FetchAt(w, j), ProgressAt(w, j, total));
      TransparentStep(page, [FetchAt(w, j), ProgressAt(w, j, total)], LoopFrom(w, j + 1, total),
        PageRun(w, Remaining(w, j + 1)));
    }
  }

  /** From state j on, the registry fetches follow the schedule; a loop that
      returns normally completes it. */
  lemma {:induction false} LoopFetches(w: World, j: nat, total: nat)
    requires j <= Fetches(|w.registry|)
    ensures Select(LoopFrom(w, j, total).events, FetchKind) <= FetchSchedule(w, j)
    ensures LoopFrom(w, j, total).outcome == Returned ==>
      Select(LoopFrom(w, j, total).events, FetchKind) == FetchSchedule(w, j)
    decreases Fetches(|w.registry|) - j, 1
  {
    if j == Fetches(|w.registry|) {
      LoopEnd(w, total);
    } else {
      FetchesStep(w, j, total);
    }
  }

  lemma {:induction false} FetchesStep(w: World, j: nat, total: nat)
    requires j < Fetches(|w.registry|)
    ensures Select(LoopFrom(w, j, total).events, FetchKind) <= FetchSchedule(w, j)
    ensures LoopFrom(w, j, total).outcome == Returned ==>
      Select(LoopFrom(w, j, total).events, FetchKind) == FetchSchedule(w, j)
    decreases Fetches(|w.registry|) - j, 0
  {
    var r, page, later, next := LoopFrom(w, j, total), PageRun(w, Pending(w, j)), LoopFrom(w, j + 1, total), FetchSchedule(w, j + 1);
    var f, p := FetchAt(w, j), ProgressAt(w, j, total);
    assert r == Then(page, Then(Run([f, p], Returned), later)) by {
      LoopStep(w, j, total);
    }
    assert Select(page.events, FetchKind) == [] by {
      PageEventsAreProjectEvents(w, Pending(w, j));
      SelectNone(page.events, FetchKind);
    }
    SelectReport(f, p);
    LoopFetches(w, j + 1, total);
    ScheduleStep(r, page, [f, p], later, f, next, FetchKind);
    FetchScheduleCons(w, j);
  }

  /** From state j on, the progress reports follow the schedule; a loop that
      returns normally completes it. */
  lemma {:induction false} LoopProgress(w: World, j: nat, total: nat)
    requires j <= Fetches(|w.registry|)
    ensures Select(LoopFrom(w, j, total).events, ProgressKind) <= ProgressSchedule(w, j, total)
    ensures LoopFrom(w, j, total).outcome == Returned ==>
      Select(LoopFrom(w, j, total).events, ProgressKind) == ProgressSchedule(w, j, total)
    decreases Fetches(|w.registry|) - j, 1
  {
    if j == Fetches(|w.registry|) {
      LoopEnd(w, total);
    } else {
      ProgressStep(w, j, total);
    }
  }

  lemma {:induction false} ProgressStep(w: World, j: nat, total: nat)
    requires j < Fetches(|w.registry|)
    ensures Select(LoopFrom(w, j, total).events, ProgressKind) <= ProgressSchedule(w, j, total)
    ensures LoopFrom(w, j, total).outcome == Returned ==>
      Select(LoopFrom(w, j, total).events, ProgressKind) == ProgressSchedule(w, j, total)
    decreases Fetches(|w.registry|) - j, 0
  {
    var r, page, later, next := LoopFrom(w, j, total), PageRun(w, Pending(w, j)), LoopFrom(w, j + 1, total), ProgressSchedule(w, j + 1, total);
    var f, p := FetchAt(w, j), ProgressAt(w, j, total);
    assert r == Then(page, Then(Run([f, p], Returned), later)) by {
      LoopStep(w, j, total);
    }
    assert Select(page.events, ProgressKind) == [] by {
      PageEventsAreProjectEvents(w, Pending(w, j));
      SelectNone(page.events, ProgressKind);
    }
    SelectReport(f, p);
    LoopProgress(w, j + 1, total);
    ScheduleStep(r, page, [f, p], later, p, next, ProgressKind);
    ProgressScheduleCons(w, j, total);
  }

  lemma PrefixCons(x: Event, a: seq<Event>, b: seq<Event>)
    requires a <= b
    ensures [x] + a <= [x] + b
  {
    assert ([x] + b)[..|[x] + a|] == [x] + b[..|a|];
  }

  /** The i-th fetch returns an empty page exactly when it is the last one. */
  lemma FetchSizes(w: World, i: nat)
    requires i < Fetches(|w.registry|)
    ensures FetchAt(w, i).size == 0 <==> i == Fetches(|w.registry|) - 1
  {
    PendingEmpty(w, i + 1);
  }

  /** The last progress report of a complete run counts every record plus the console. */
  lemma LastProgress(w: World, total: nat)
    ensures ProgressAt(w, Fetches(|w.registry|) - 1, total) == Progress(|w.registry| + 1, total)
  {
    PendingEmpty(w, Fetches(|w.registry|));
  }

  /** The fetches of the whole loop, from the console page on. */
  lemma FetchReports(w: World, total: nat)
    ensures var f := Select(LoopFrom(w, 0, total).events, FetchKind);
      forall i :: 0 <= i < |f| ==> f[i] == Fetched(Limit * i, Limit, |FetchPage(w.registry, Limit * i, Limit)|)
    ensures LoopFrom(w, 0, total).outcome == Returned ==>
      var f := Select(LoopFrom(w, 0, total).events, FetchKind);
      |f| == Fetches(|w.registry|) && forall i :: 0 <= i < |f| ==> (f[i].size == 0 <==> i == |f| - 1)
  {
    var f := Select(LoopFrom(w, 0, total).events, FetchKind);
    LoopFetches(w, 0, total);
    forall i | 0 <= i < |f|
      ensures f[i] == Fetched(Limit * i, Limit, |FetchPage(w.registry, Limit * i, Limit)|)
      ensures f[i].size == 0 <==> i == Fetches(|w.registry|) - 1
    {
      FetchSizes(w, i);
    }
  }

  /** The progress reports of the whole loop, from the console page on. */
  lemma ProgressReports(w: World, total: nat)
    ensures var r := Select(LoopFrom(w, 0, total).events, ProgressKind);
      forall i :: 0 <= i < |r| ==> r[i] == Progress(1 + Min(Limit * i, |w.registry|), total)
    ensures LoopFrom(w, 0, total).outcome == Returned ==>
      var r := Select(LoopFrom(w, 0, total).events, ProgressKind);
      |r| == Fetches(|w.registry|) && r[|r| - 1] == Progress(|w.registry| + 1, total)
  {
    var r := Select(LoopFrom(w, 0, total).events, ProgressKind);
    LoopProgress(w, 0, total);
    if LoopFrom(w, 0, total).outcome == Returned {
      LastProgress(w, total);
    }
  }
}
