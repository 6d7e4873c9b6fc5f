/** What a whole run of the driver does: version check, authorization,
    counting with retry, the order of purges and migrations, fail-fast,
    pagination and progress accounting, and the harmlessness of cache
    failures. */
module RunProperties {
  import opened MigrationModel
  import opened Observation
  import opened PageProperties
  import opened LoopProperties

  /** Whether counting the projects succeeds, possibly on the retry. */
  predicate CountSucceeds(w: World, namespace: Namespace) {
    (namespace, 0) !in w.countFails || (ConsoleNamespace, 1) !in w.countFails
  }

  /** The events before the loop of a run with a known version. */
  function Preamble(w: World, namespace: Namespace, version: string): seq<Event> {
    [AuthDisabled, Started(version)] + CountRun(w, namespace).events
  }

  predicate PreambleKind(k: Kind) {
    k == AuthKind || k == StartKind || k == CountKind || k == NamespaceKind
  }

  lemma PreambleKinds(w: World, namespace: Namespace, version: string)
    ensures forall e :: e in Preamble(w, namespace, version) ==> PreambleKind(KindOf(e))
  {
  }

  /** A run with a known version whose count succeeds: the preamble, the loop
      from the console page, and the completion message if the loop returned. */
  lemma ActionUnfold(w: World, namespace: Namespace, version: string)
    requires version in w.catalog && CountSucceeds(w, namespace)
    ensures var l := LoopFrom(w, 0, |w.registry| + 1);
      ActionRun(w, namespace, version) ==
      Run(Preamble(w, namespace, version) + l.events + (if l.outcome == Returned then [Completed] else []), l.outcome)
  {
    var l := LoopFrom(w, 0, |w.registry| + 1);
    assert l == LoopRun(w, [w.console], 0, 0, |w.registry| + 1) by {
      assert Pending(w, 0) == [w.console] && Limit * 0 == 0 && Processed(w, 0) == 0;
    }
    var start, count, rest := Run([AuthDisabled, Started(version)], Returned), CountRun(w, namespace), Then(l, Run([Completed], Returned));
    ThenAssoc(start, count, rest);
    assert Then(start, count) == Run(Preamble(w, namespace, version), Returned);
  }

  /** The events of kind k of a run that reached the loop. */
  lemma SelectRun(w: World, namespace: Namespace, version: string, k: Kind)
    requires version in w.catalog && CountSucceeds(w, namespace)
    requires !PreambleKind(k) && k != CompletionKind
    ensures Select(ActionRun(w, namespace, version).events, k) == Select(LoopFrom(w, 0, |w.registry| + 1).events, k)
    ensures ActionRun(w, namespace, version).outcome == LoopFrom(w, 0, |w.registry| + 1).outcome
  {
    var l := LoopFrom(w, 0, |w.registry| + 1);
    ActionUnfold(w, namespace, version);
    PreambleKinds(w, namespace, version);
    SelectMiddle(Preamble(w, namespace, version), l.events, if l.outcome == Returned then [Completed] else [], k);
  }

  lemma SelectMiddle(pre: seq<Event>, mid: seq<Event>, tail: seq<Event>, k: Kind)
    requires forall e :: e in pre ==> KindOf(e) != k
    requires forall e :: e in tail ==> KindOf(e) != k
    ensures Select(pre + mid + tail, k) == Select(mid, k)
  {
    SelectNone(pre, k);
    SelectNone(tail, k);
    SelectConcat(pre, mid, k);
    SelectConcat(pre + mid, tail, k);
  }

  /** Purges and migrations of a run that reached the loop follow the
      reference description over the console and all registry records. */
  lemma ProjectTrace(w: World, namespace: Namespace, version: string)
    requires version in w.catalog && CountSucceeds(w, namespace)
    ensures Select(ActionRun(w, namespace, version).events, ProjectKind) == Reference(w, Kept(AllProjects(w))).events
    ensures LoopFrom(w, 0, |w.registry| + 1).outcome == Reference(w, Kept(AllProjects(w))).outcome
  {
    SelectRun(w, namespace, version, ProjectKind);
    LoopProjects(w, 0, |w.registry| + 1);
    PageRunClosedForm(w, AllProjects(w));
  }

  // ---------------------------------------------------------------------
  // Version check, authorization and counting

  /** The run exits with status 1 exactly when the version is unknown, and
      then it has done nothing but disable authorization and report. */
  lemma UnknownVersion(w: World, namespace: Namespace, version: string)
    ensures ActionRun(w, namespace, version).outcome == Exited(1) <==> version !in w.catalog
    ensures version !in w.catalog ==>
      ActionRun(w, namespace, version).events == [AuthDisabled, VersionNotFound(version)]
  {
    if version in w.catalog && CountSucceeds(w, namespace) {
      ActionUnfold(w, namespace, version);
      ProjectTrace(w, namespace, version);
    }
  }

  /** Authorization is disabled first and only once. */
  lemma AuthorizationFirst(w: World, namespace: Namespace, version: string)
    ensures |ActionRun(w, namespace, version).events| > 0
    ensures ActionRun(w, namespace, version).events[0] == AuthDisabled
    ensures Select(ActionRun(w, namespace, version).events, AuthKind) == [AuthDisabled]
  {
    var s := ActionRun(w, namespace, version).events;
    if version in w.catalog && CountSucceeds(w, namespace) {
      AuthorizationInLoop(w, namespace, version);
    } else {
      PreambleAuth(s);
    }
  }

  lemma AuthorizationInLoop(w: World, namespace: Namespace, version: string)
    requires version in w.catalog && CountSucceeds(w, namespace)
    ensures Select(ActionRun(w, namespace, version).events, AuthKind) == [AuthDisabled]
  {
    var pre := Preamble(w, namespace, version);
    var l := LoopFrom(w, 0, |w.registry| + 1);
    var tail := if l.outcome == Returned then [Completed] else [];
    ActionUnfold(w, namespace, version);
    assert Pending(w, 0) == [w.console] && Limit * 0 == 0 && Processed(w, 0) == 0;
    LoopEventKinds(w, Pending(w, 0), 0, 0, |w.registry| + 1);
    AuthOnce(pre, l.events, tail);
  }

  lemma AuthOnce(pre: seq<Event>, loop: seq<Event>, tail: seq<Event>)
    requires |pre| > 0 && pre[0] == AuthDisabled
    requires forall i :: 0 < i < |pre| ==> KindOf(pre[i]) != AuthKind
    requires forall e :: e in loop ==> LoopKind(KindOf(e))
    requires forall e :: e in tail ==> e == Completed
    ensures Select(pre + loop + tail, AuthKind) == [AuthDisabled]
  {
    SelectNone(loop, AuthKind);
    SelectNone(tail, AuthKind);
    SelectConcat(pre, loop, AuthKind);
    SelectConcat(pre + loop, tail, AuthKind);
    PreambleAuth(pre);
  }

  lemma PreambleAuth(s: seq<Event>)
    requires |s| > 0 && s[0] == AuthDisabled
    requires forall i :: 0 < i < |s| ==> KindOf(s[i]) != AuthKind
    ensures Select(s, AuthKind) == [AuthDisabled]
  {
    assert s == [AuthDisabled] + s[1..];
    SelectNone(s[1..], AuthKind);
  }

  /** The project count is issued once, and retried exactly once in the
      console namespace when it fails; only a second failure ends the run,
      before anything is fetched, purged or migrated. */
  lemma CountRetry(w: World, namespace: Namespace, version: string)
    requires version in w.catalog
    ensures ActionRun(w, namespace, version).events[..2 + |CountRun(w, namespace).events|]
         == [AuthDisabled, Started(version)] + CountRun(w, namespace).events
    ensures CountRun(w, namespace).events ==
      if (namespace, 0) !in w.countFails then [Counted(namespace, true)]
      else [Counted(namespace, false), NamespaceSet(ConsoleNamespace), Counted(ConsoleNamespace, CountSucceeds(w, namespace))]
    ensures ActionRun(w, namespace, version).outcome == Raised(CountFailure) <==> !CountSucceeds(w, namespace)
    ensures !CountSucceeds(w, namespace) ==>
      ActionRun(w, namespace, version).events == [AuthDisabled, Started(version)] + CountRun(w, namespace).events
  {
    if CountSucceeds(w, namespace) {
      ActionUnfold(w, namespace, version);
      ProjectTrace(w, namespace, version);
    }
  }

  /** Each count attempt fails or succeeds on its own: a first count that
      throws with the console namespace already selected can still be
      followed by a retry that succeeds. */
  lemma RetryInSameNamespace(w: World, version: string)
    requires version in w.catalog
    requires (ConsoleNamespace, 0) in w.countFails && (ConsoleNamespace, 1) !in w.countFails
    ensures CountRun(w, ConsoleNamespace).events ==
      [Counted(ConsoleNamespace, false), NamespaceSet(ConsoleNamespace), Counted(ConsoleNamespace, true)]
    ensures ActionRun(w, ConsoleNamespace, version).outcome != Raised(CountFailure)
  {
    CountRetry(w, ConsoleNamespace, version);
  }

  // ---------------------------------------------------------------------
  // Ending of a run

  /** How a run ends: status 1 for an unknown version, the count failure if
      both counts fail, otherwise the failure of the first project the skip
      rule keeps whose lookup or migration throws, or normal return. */
  lemma RunOutcome(w: World, namespace: Namespace, version: string)
    ensures ActionRun(w, namespace, version).outcome ==
      if version !in w.catalog then Exited(1)
      else if !CountSucceeds(w, namespace) then Raised(CountFailure)
      else
        var qs := Kept(AllProjects(w));
        var k := FailIndex(w, qs);
        if k == |qs| then Returned else Raised(FailureOf(w, qs[k]))
  {
    if version in w.catalog && CountSucceeds(w, namespace) {
      ActionUnfold(w, namespace, version);
      ProjectTrace(w, namespace, version);
    }
  }

  lemma ActionGood(w: World, namespace: Namespace, version: string)
    ensures Good(ActionRun(w, namespace, version))
  {
    if version in w.catalog {
      var start := Run([AuthDisabled, Started(version)], Returned);
      QuietGood(start);
      UpgradeGood(w, namespace);
      ThenGood(start, UpgradeRun(w, namespace));
    }
  }

  /** A run that migrates nothing and raises no project failure is good. */
  lemma QuietGood(r: Run)
    requires forall i :: 0 <= i < |r.events| ==> !r.events[i].Migrated?
    requires !ProjectFailure(r.outcome)
    ensures Good(r)
  {
  }

  lemma UpgradeGood(w: World, namespace: Namespace)
    ensures Good(UpgradeRun(w, namespace))
  {
    var l := LoopRun(w, [w.console], 0, 0, |w.registry| + 1);
    var done := Run([Completed], Returned);
    LoopGood(w, [w.console], 0, 0, |w.registry| + 1);
    QuietGood(done);
    ThenGood(l, done);
    QuietGood(CountRun(w, namespace));
    ThenGood(CountRun(w, namespace), Then(l, done));
  }

  /** Every successful migration in the trace sits between two purges of the
      same project, with nothing in between. */
  lemma PurgeMigratePurge(w: World, namespace: Namespace, version: string, i: nat)
    requires i < |ActionRun(w, namespace, version).events|
    requires ActionRun(w, namespace, version).events[i].Migrated?
    requires ActionRun(w, namespace, version).events[i].status == Executed
    ensures var s := ActionRun(w, namespace, version).events;
      0 < i < |s| - 1 &&
      IsPurgeOf(s[i - 1], s[i].project) && IsPurgeOf(s[i + 1], s[i].project)
  {
    ActionGood(w, namespace, version);
  }

  /** A run that ends with the failure of project p stops right after p's
      pre-purge and failed migration: no post-purge, no later project or page,
      no completion message, and no earlier failed migration. */
  lemma FailFast(w: World, namespace: Namespace, version: string)
    requires ProjectFailure(ActionRun(w, namespace, version).outcome)
    ensures var s, f := ActionRun(w, namespace, version).events, ActionRun(w, namespace, version).outcome.failure;
      |s| >= 2 && s[|s| - 1] == Migrated(f.project, StatusOf(f)) && IsPurgeOf(s[|s| - 2], f.project) &&
      Clean(s[..|s| - 1]) && Completed !in s
  {
    ActionGood(w, namespace, version);
    var s := ActionRun(w, namespace, version).events;
    assert Completed !in s by {
      if version in w.catalog && CountSucceeds(w, namespace) {
        var l := LoopFrom(w, 0, |w.registry| + 1);
        ActionUnfold(w, namespace, version);
        assert Pending(w, 0) == [w.console] && Limit * 0 == 0 && Processed(w, 0) == 0;
        LoopEventKinds(w, Pending(w, 0), 0, 0, |w.registry| + 1);
        PreambleKinds(w, namespace, version);
        NoCompletion(Preamble(w, namespace, version), l.events);
      }
    }
  }

  lemma NoCompletion(pre: seq<Event>, loop: seq<Event>)
    requires forall e :: e in pre ==> PreambleKind(KindOf(e))
    requires forall e :: e in loop ==> LoopKind(KindOf(e))
    ensures Completed !in pre + loop
  {
  }

  /** A run that returns normally has migrated every project the skip rule
      keeps, in order, each between its two purges, and ends with the
      completion message. */
  lemma SuccessfulRun(w: World, namespace: Namespace, version: string)
    requires ActionRun(w, namespace, version).outcome == Returned
    ensures version in w.catalog && CountSucceeds(w, namespace)
    ensures forall p :: p in Kept(AllProjects(w)) ==> !Fails(w, p)
    ensures Select(ActionRun(w, namespace, version).events, ProjectKind) == Triples(w, Kept(AllProjects(w)))
    ensures |ActionRun(w, namespace, version).events| > 0
    ensures ActionRun(w, namespace, version).events[|ActionRun(w, namespace, version).events| - 1] == Completed
  {
    RunOutcome(w, namespace, version);
    ProjectTrace(w, namespace, version);
    ActionUnfold(w, namespace, version);
  }

  /** The k-th kept project of a run that returned normally is purged,
      migrated and purged at events 3k, 3k+1, 3k+2 of the purge and migration
      events, so a registry record that appears twice is migrated twice
      (the root project, which the registry does not hold, is migrated once:
      see RootMigratedOnce). */
  lemma MigratedInOrder(w: World, namespace: Namespace, version: string, k: nat)
    requires ActionRun(w, namespace, version).outcome == Returned
    requires k < |Kept(AllProjects(w))|
    ensures var s, q := Select(ActionRun(w, namespace, version).events, ProjectKind), Kept(AllProjects(w))[k];
      |s| == 3 * |Kept(AllProjects(w))| &&
      s[3 * k] == Purged(q, PurgeSucceeds(w, q)) && s[3 * k + 1] == Migrated(q, Executed) &&
      s[3 * k + 2] == Purged(q, PurgeSucceeds(w, q))
  {
    SuccessfulRun(w, namespace, version);
    TriplesAt(w, Kept(AllProjects(w)), k);
  }

  /** The root project is migrated at most once per run, and exactly once in
      a run that returns, even when a user project reuses its id on a later
      page. */
  lemma RootMigratedOnce(w: World, namespace: Namespace, version: string)
    requires !Skipped(w.console) && w.console !in w.registry
    ensures multiset(ActionRun(w, namespace, version).events)[Migrated(w.console, Executed)] <= 1
    ensures ActionRun(w, namespace, version).outcome == Returned ==>
      multiset(ActionRun(w, namespace, version).events)[Migrated(w.console, Executed)] == 1
  {
    var s, e := ActionRun(w, namespace, version).events, Migrated(w.console, Executed);
    if version in w.catalog && CountSucceeds(w, namespace) {
      RootMigratedOnceInLoop(w, namespace, version);
    } else {
      RunOutcome(w, namespace, version);
      if version in w.catalog {
        CountRetry(w, namespace, version);
      }
      assert e !in s;
    }
  }

  lemma RootMigratedOnceInLoop(w: World, namespace: Namespace, version: string)
    requires !Skipped(w.console) && w.console !in w.registry
    requires version in w.catalog && CountSucceeds(w, namespace)
    ensures multiset(ActionRun(w, namespace, version).events)[Migrated(w.console, Executed)] <= 1
    ensures ActionRun(w, namespace, version).outcome == Returned ==>
      multiset(ActionRun(w, namespace, version).events)[Migrated(w.console, Executed)] == 1
  {
    var r, e, qs := ActionRun(w, namespace, version), Migrated(w.console, Executed), Kept(AllProjects(w));
    assert Select(r.events, ProjectKind) == Reference(w, qs).events && r.outcome == Reference(w, qs).outcome by {
      ProjectTrace(w, namespace, version);
      SelectRun(w, namespace, version, ProjectKind);
    }
    SelectCount(r.events, ProjectKind, e);
    RootKeptOnce(w);
    ReferenceCount(w, qs, w.console);
  }

  /** The root project occurs once among the projects the skip rule keeps. */
  lemma RootKeptOnce(w: World)
    requires !Skipped(w.console) && w.console !in w.registry
    ensures multiset(Kept(AllProjects(w)))[w.console] == 1
  {
    var ps := AllProjects(w);
    assert ps[0] == w.console && ps[1..] == w.registry;
    assert Kept(ps) == [w.console] + Kept(w.registry);
    assert w.console !in Kept(w.registry);
  }

  /** A project kept once is migrated at most once by the reference
      description, and exactly once when it returns. */
  lemma ReferenceCount(w: World, qs: seq<Project>, p: Project)
    requires multiset(qs)[p] == 1
    ensures multiset(Reference(w, qs).events)[Migrated(p, Executed)] <= 1
    ensures Reference(w, qs).outcome == Returned ==> multiset(Reference(w, qs).events)[Migrated(p, Executed)] == 1
  {
    var k := FailIndex(w, qs);
    PrefixCount(qs, k, p);
    TriplesCount(w, qs[..k], p);
    if k == |qs| {
      assert qs[..k] == qs;
    } else {
      AttemptCount(w, Triples(w, qs[..k]), qs[k], p);
    }
  }

  lemma PrefixCount(qs: seq<Project>, k: nat, p: Project)
    requires k <= |qs|
    ensures multiset(qs[..k])[p] <= multiset(qs)[p]
  {
    assert qs == qs[..k] + qs[k..];
    assert multiset(qs) == multiset(qs[..k]) + multiset(qs[k..]);
  }

  /** A failed attempt adds no successful migration. */
  lemma AttemptCount(w: World, done: seq<Event>, q: Project, p: Project)
    ensures multiset(done + Attempt(w, q))[Migrated(p, Executed)] == multiset(done)[Migrated(p, Executed)]
  {
    assert multiset(done + Attempt(w, q)) == multiset(done) + multiset(Attempt(w, q));
    assert Migrated(p, Executed) !in Attempt(w, q);
  }

  /** A run that fails on project q has fully migrated every kept project
      before q, and touched nothing after it. */
  lemma FailedRunTrace(w: World, namespace: Namespace, version: string)
    requires ProjectFailure(ActionRun(w, namespace, version).outcome)
    ensures version in w.catalog && CountSucceeds(w, namespace)
    ensures var qs := Kept(AllProjects(w)); var k := FailIndex(w, qs);
      k < |qs| && ActionRun(w, namespace, version).outcome == Raised(FailureOf(w, qs[k])) &&
      Select(ActionRun(w, namespace, version).events, ProjectKind) == Triples(w, qs[..k]) + Attempt(w, qs[k])
  {
    RunOutcome(w, namespace, version);
    ProjectTrace(w, namespace, version);
  }

  /** The skip rule: a project with the reserved id but another internal id is
      never purged nor migrated; every project touched is the console or a
      registry record. */
  lemma SkipRule(w: World, namespace: Namespace, version: string)
    ensures forall e :: e in ActionRun(w, namespace, version).events && (e.Purged? || e.Migrated?) ==>
      !Skipped(e.project) && e.project in AllProjects(w)
  {
    var s := ActionRun(w, namespace, version).events;
    if version in w.catalog && CountSucceeds(w, namespace) {
      SelectRun(w, namespace, version, ProjectKind);
      LoopProjects(w, 0, |w.registry| + 1);
      PageProjects(w, AllProjects(w));
      ProjectsOf(s, PageRun(w, AllProjects(w)).events, AllProjects(w));
    }
  }

  lemma ProjectsOf(s: seq<Event>, t: seq<Event>, ps: seq<Project>)
    requires Select(s, ProjectKind) == t
    requires forall e :: e in t ==> (e.Purged? || e.Migrated?) && !Skipped(e.project) && e.project in ps
    ensures forall e :: e in s && (e.Purged? || e.Migrated?) ==> !Skipped(e.project) && e.project in ps
  {
    SelectMembers(s, ProjectKind);
    forall e | e in s && (e.Purged? || e.Migrated?) ensures !Skipped(e.project) && e.project in ps {
      assert e in t;
    }
  }

  lemma {:induction false} PageProjects(w: World, ps: seq<Project>)
    ensures forall e :: e in PageRun(w, ps).events ==> (e.Purged? || e.Migrated?) && !Skipped(e.project) && e.project in ps
  {
    if ps != [] {
      PageProjects(w, ps[1..]);
      assert forall p :: p in ps[1..] ==> p in ps;
    }
  }

  /** The console project is handled before anything is fetched: right after
      the preamble come its purge and migration events. */
  lemma ConsoleFirst(w: World, namespace: Namespace, version: string)
    requires version in w.catalog && CountSucceeds(w, namespace)
    ensures var pre, visit := Preamble(w, namespace, version), Visit(w, w.console).events;
      ActionRun(w, namespace, version).events[..|pre| + |visit|] == pre + visit
  {
    ActionUnfold(w, namespace, version);
    var l := LoopFrom(w, 0, |w.registry| + 1);
    var page := PageRun(w, [w.console]);
    assert [w.console][1..] == [];
    assert PageRun(w, [w.console][1..]) == Run([], Returned);
    assert page == Then(Visit(w, w.console), Run([], Returned));
    assert page.events == Visit(w, w.console).events;
    assert Pending(w, 0) == [w.console] && Limit * 0 == 0 && Processed(w, 0) == 0;
    assert l.events[..|Visit(w, w.console).events|] == Visit(w, w.console).events;
  }

  // ---------------------------------------------------------------------
  // Pagination and progress

  /** The i-th registry fetch uses offset 30 * i and limit 30, whatever the
      outcome; a run that returns normally fetches exactly Fetches(n) pages,
      every one non-empty but the last. */
  lemma FetchOffsets(w: World, namespace: Namespace, version: string)
    ensures var f := Select(ActionRun(w, namespace, version).events, FetchKind);
      forall i :: 0 <= i < |f| ==>
        f[i] == Fetched(Limit * i, Limit, |FetchPage(w.registry, Limit * i, Limit)|)
    ensures ActionRun(w, namespace, version).outcome == Returned ==>
      var f := Select(ActionRun(w, namespace, version).events, FetchKind);
      |f| == Fetches(|w.registry|) &&
      forall i :: 0 <= i < |f| ==> (f[i].size == 0 <==> i == |f| - 1)
  {
    var s := ActionRun(w, namespace, version).events;
    if version in w.catalog && CountSucceeds(w, namespace) {
      SelectRun(w, namespace, version, FetchKind);
      FetchReports(w, |w.registry| + 1);
    } else {
      SelectNone(s, FetchKind);
    }
  }

  /** After the i-th iteration the processed count is 1 + min(30 * i, n) out
      of n + 1; a run that returns normally reports Fetches(n) times and ends
      at n + 1 of n + 1. */
  lemma ProgressCounts(w: World, namespace: Namespace, version: string)
    ensures var r := Select(ActionRun(w, namespace, version).events, ProgressKind);
      forall i :: 0 <= i < |r| ==>
        r[i] == Progress(1 + Min(Limit * i, |w.registry|), |w.registry| + 1)
    ensures ActionRun(w, namespace, version).outcome == Returned ==>
      var r := Select(ActionRun(w, namespace, version).events, ProgressKind);
      |r| == Fetches(|w.registry|) && r[|r| - 1] == Progress(|w.registry| + 1, |w.registry| + 1)
  {
    var s := ActionRun(w, namespace, version).events;
    if version in w.catalog && CountSucceeds(w, namespace) {
      SelectRun(w, namespace, version, ProgressKind);
      ProgressReports(w, |w.registry| + 1);
    } else {
      SelectNone(s, ProgressKind);
    }
  }

  /** A registry of 45 records and no failures: three fetches (30, 15 and 0
      records) and progress 1, 31, 46 out of 46. */
  lemma FortyFiveProjects(w: World, namespace: Namespace, version: string)
    requires version in w.catalog && (namespace, 0) !in w.countFails
    requires |w.registry| == 45 && w.lookupFails == {} && w.executeFails == {}
    ensures ActionRun(w, namespace, version).outcome == Returned
    ensures Select(ActionRun(w, namespace, version).events, FetchKind)
         == [Fetched(0, 30, 30), Fetched(30, 30, 15), Fetched(60, 30, 0)]
    ensures Select(ActionRun(w, namespace, version).events, ProgressKind)
         == [Progress(1, 46), Progress(31, 46), Progress(46, 46)]
  {
    RunOutcome(w, namespace, version);
    FetchOffsets(w, namespace, version);
    ProgressCounts(w, namespace, version);
    assert Fetches(45) == 3;
  }

  // ---------------------------------------------------------------------
  // Cache failures

  /** Cache purge failures are never fatal: two worlds that differ only in
      which purges fail give runs with the same outcome and the same events up
      to purge results. */
  lemma CacheFailuresHarmless(w1: World, w2: World, namespace: Namespace, version: string)
    requires SameButCache(w1, w2)
    ensures ActionRun(w1, namespace, version).outcome == ActionRun(w2, namespace, version).outcome
    ensures Erase(ActionRun(w1, namespace, version).events) == Erase(ActionRun(w2, namespace, version).events)
  {
    if version in w1.catalog {
      var total := |w1.registry| + 1;
      var done := Run([Completed], Returned);
      var l1, l2 := LoopRun(w1, [w1.console], 0, 0, total), LoopRun(w2, [w2.console], 0, 0, total);
      LoopAlike(w1, w2, [w1.console], 0, 0, total);
      ThenAlike(l1, l2, done, done);
      ThenAlike(CountRun(w1, namespace), CountRun(w2, namespace), Then(l1, done), Then(l2, done));
      var start := Run([AuthDisabled, Started(version)], Returned);
      ThenAlike(start, start, Then(CountRun(w1, namespace), Then(l1, done)), Then(CountRun(w2, namespace), Then(l2, done)));
    }
  }
}
