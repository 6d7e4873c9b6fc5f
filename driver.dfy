/** The migration driver as the source writes it: a `while` loop over pages
    with a nested loop over the projects of each page, mutating the locals
    `projects`, `offset`, `count` and `sum`, and appending every observable
    effect to the `log` of the `Migrate` object. `Migrate.Action` is proved to
    emit exactly the trace of `MigrationModel.ActionRun`. */
module Driver {
  import opened MigrationModel
  import opened PageProperties
  import opened LoopProperties
  import RunProperties

  datatype Option<T> = None | Some(value: T)

  /** The console database (`$dbForConsole`): the records of its 'projects'
      collection, the (namespace, attempt) pairs for which counting them
      throws, the number of counts issued so far, and the namespace currently
      selected. */
  class ConsoleDatabase {
    const records: seq<Project>
    const countFails: set<(Namespace, nat)>
    var counts: nat
    var namespace: Namespace

    constructor (records: seq<Project>, countFails: set<(Namespace, nat)>, namespace: Namespace)
      ensures this.records == records && this.countFails == countFails && this.namespace == namespace
      ensures counts == 0
    {
      this.records := records;
      this.countFails := countFails;
      this.namespace := namespace;
      counts := 0;
    }

    /** `count('projects')`: the number of records, or None when this attempt
        throws in the selected namespace. */
    method Count() returns (n: Option<nat>)
      modifies this
      ensures n.Some? <==> (namespace, old(counts)) !in countFails
      ensures n.Some? ==> n.value == |records|
      ensures counts == old(counts) + 1 && namespace == old(namespace)
    {
      if (namespace, counts) in countFails {
        n := None;
      } else {
        n := Some(|records|);
      }
      counts := counts + 1;
    }

    method SetNamespace(ns: Namespace)
      modifies this
      ensures namespace == ns && counts == old(counts)
    {
      namespace := ns;
    }

    /** `find('projects', [limit, offset])`. */
    method Find(limit: nat, offset: nat) returns (page: seq<Project>)
      ensures |page| == if offset >= |records| then 0 else Min(limit, |records| - offset)
      ensures forall i :: 0 <= i < |page| ==> offset + i < |records| && page[i] == records[offset + i]
    {
      if offset >= |records| {
        page := [];
      } else {
        page := records[offset..offset + Min(limit, |records| - offset)];
      }
    }
  }

  /** The handle `$getProjectDB` returns for a project. */
  datatype ProjectDatabase = ProjectDatabase(project: Project)

  /** `$getProjectDB($project)`: None when the lookup throws. */
  function GetProjectDB(w: World, p: Project): (db: Option<ProjectDatabase>)
    ensures db.None? <==> p in w.lookupFails
    ensures db.Some? ==> db.value.project == p
  {
    if p in w.lookupFails then None else Some(ProjectDatabase(p))
  }

  /** The migration object of the requested version. It is created once per
      run and rebound to each project before it executes. */
  class Migration {
    const className: string
    var project: Option<Project>
    var projectDB: Option<ProjectDatabase>
    var pdo: bool

    constructor (className: string)
      ensures this.className == className && project == None && projectDB == None && !pdo
    {
      this.className := className;
      project := None;
      projectDB := None;
      pdo := false;
    }

    /** `setProject($project, $projectDB, $dbForConsole)` */
    method SetProject(p: Project, db: ProjectDatabase)
      modifies this
      ensures project == Some(p) && projectDB == Some(db) && pdo == old(pdo)
    {
      project := Some(p);
      projectDB := Some(db);
    }

    /** `setPDO($register->get('db', true))` */
    method SetPDO()
      modifies this
      ensures pdo && project == old(project) && projectDB == old(projectDB)
    {
      pdo := true;
    }

    /** `execute()`: whether the migration of the bound project returns. */
    method Execute(w: World) returns (ok: bool)
      requires project.Some?
      ensures ok <==> project.value !in w.executeFails
    {
      ok := project.value !in w.executeFails;
    }
  }

  /** `Then(Run(log, Returned), …)` after more events were logged. */
  lemma Emit(log: seq<Event>, events: seq<Event>, rest: Run)
    ensures Then(Run(log, Returned), Then(Run(events, Returned), rest)) == Then(Run(log + events, Returned), rest)
  {
    assert (log + events) + rest.events == log + (events + rest.events);
  }

  class Migrate {
    /** Every observable effect so far, in order. */
    var log: seq<Event>

    constructor ()
      ensures log == []
    {
      log := [];
    }

    /** `clearProjectsCache`: purge the project's cache entries; a failure is
        logged and swallowed. */
    method ClearProjectsCache(w: World, p: Project)
      modifies this
      ensures log == old(log) + [Purged(p, PurgeSucceeds(w, p))]
    {
      var ok := p.internalId !in w.purgeFails;
      log := log + [Purged(p, ok)];
    }

    /** One iteration of the `foreach`: the skip rule, then purge, database
        lookup, migration and purge again. A failing lookup or migration is
        logged and raised, and the post-purge is not reached. */
    method MigrateProject(w: World, project: Project, migration: Migration) returns (outcome: Outcome)
      modifies this, migration
      ensures log == old(log) + Visit(w, project).events
      ensures outcome == Visit(w, project).outcome
      ensures !Skipped(project) && project !in w.lookupFails ==>
        migration.project == Some(project) && migration.pdo
      ensures Skipped(project) || project in w.lookupFails ==> migration.project == old(migration.project)
    {
      if Skipped(project) {
        return Returned;
      }
      ClearProjectsCache(w, project);
      var projectDB := GetProjectDB(w, project);
      if projectDB.None? {
        log := log + [Migrated(project, LookupFailed)];
        return Raised(LookupFailure(project));
      }
      migration.SetProject(project, projectDB.value);
      migration.SetPDO();
      var ok := migration.Execute(w);
      if !ok {
        log := log + [Migrated(project, ExecuteFailed)];
        return Raised(ExecuteFailure(project));
      }
      log := log + [Migrated(project, Executed)];
      ClearProjectsCache(w, project);
      return Returned;
    }

    /** The `foreach` over one page; it stops at the first project that raises. */
    method MigratePage(w: World, projects: seq<Project>, migration: Migration) returns (outcome: Outcome)
      modifies this, migration
      ensures log == old(log) + PageRun(w, projects).events
      ensures outcome == PageRun(w, projects).outcome
    {
      ghost var goal := Then(Run(log, Returned), PageRun(w, projects));
      assert projects[0..] == projects;
      for i := 0 to |projects|
        invariant Then(Run(log, Returned), PageRun(w, projects[i..])) == goal
      {
        ghost var before := log;
        assert projects[i..][1..] == projects[i + 1..];
        var r := MigrateProject(w, projects[i], migration);
        if r != Returned {
          return r;
        }
        Emit(before, Visit(w, projects[i]).events, PageRun(w, projects[i + 1..]));
      }
      assert log + [] == log;
      return Returned;
    }

    /** `action`: migrate every project to `version`. The result says how the
        call ended: Returned, Exited(1) for an unknown version, or the
        exception it raised. */
    method Action(version: string, w: World, db: ConsoleDatabase) returns (outcome: Outcome)
      requires db.records == w.registry && db.countFails == w.countFails && db.counts == 0
      modifies this, db
      ensures log == old(log) + ActionRun(w, old(db.namespace), version).events
      ensures outcome == ActionRun(w, old(db.namespace), version).outcome
      ensures outcome == Exited(1) <==> version !in w.catalog
      ensures db.namespace ==
        if version in w.catalog && (old(db.namespace), 0) in w.countFails then ConsoleNamespace else old(db.namespace)
    {
      RunProperties.UnknownVersion(w, db.namespace, version);
      log := log + [AuthDisabled];
      if version !in w.catalog {
        log := log + [VersionNotFound(version)];
        return Exited(1);
      }
      log := log + [Started(version)];
      ghost var started := log;
      ghost var upgrade := UpgradeRun(w, db.namespace);
      outcome := Upgrade(version, w, db);
      assert log == old(log) + [AuthDisabled, Started(version)] + upgrade.events;
    }

    /** Everything `action` does once the version is known: count the
        projects, build the migration once, run the paginated loop and report
        completion. */
    method Upgrade(version: string, w: World, db: ConsoleDatabase) returns (outcome: Outcome)
      requires version in w.catalog
      requires db.records == w.registry && db.countFails == w.countFails && db.counts == 0
      modifies this, db
      ensures log == old(log) + UpgradeRun(w, old(db.namespace)).events
      ensures outcome == UpgradeRun(w, old(db.namespace)).outcome
      ensures db.namespace == if (old(db.namespace), 0) in w.countFails then ConsoleNamespace else old(db.namespace)
    {
      ghost var goal := Then(Run(log, Returned), UpgradeRun(w, db.namespace));
      ghost var count := CountRun(w, db.namespace);
      ghost var loop := LoopRun(w, [w.console], 0, 0, |w.registry| + 1);
      ghost var done := Run([Completed], Returned);
      ghost var before := log;
      var n := CountProjects(w, db);
      if n.None? {
        return Raised(CountFailure);
      }
      Emit(before, count.events, Then(loop, done));
      var total: nat := n.value + 1;
      var migration := new Migration(w.catalog[version]);
      ghost var counted := log;
      outcome := MigrateAll(w, db, total, migration);
      if outcome == Returned {
        Emit(counted, loop.events, done);
        log := log + [Completed];
      }
      assert goal == Run(log, outcome);
    }

    /** The `try`/`catch` around `count('projects')`: on any failure select
        the console namespace and count once more; a second failure is
        raised (None here). */
    method CountProjects(w: World, db: ConsoleDatabase) returns (n: Option<nat>)
      requires db.records == w.registry && db.countFails == w.countFails && db.counts == 0
      modifies this, db
      ensures log == old(log) + CountRun(w, old(db.namespace)).events
      ensures n.Some? <==> CountRun(w, old(db.namespace)).outcome == Returned
      ensures n.Some? ==> n.value == |w.registry|
      ensures db.namespace == if (old(db.namespace), 0) in w.countFails then ConsoleNamespace else old(db.namespace)
    {
      n := db.Count();
      log := log + [Counted(db.namespace, n.Some?)];
      if n.None? {
        db.SetNamespace(ConsoleNamespace);
        log := log + [NamespaceSet(ConsoleNamespace)];
        n := db.Count();
        log := log + [Counted(db.namespace, n.Some?)];
      }
    }

    /** The paginated `while` loop of `action`: the console page first, then
        registry pages of `Limit` records at growing offsets until a fetch
        returns nothing; after each page the processed count grows by the
        page's size and progress is logged. */
    method MigrateAll(w: World, db: ConsoleDatabase, total: nat, migration: Migration) returns (outcome: Outcome)
      requires db.records == w.registry
      modifies this, migration
      ensures log == old(log) + LoopRun(w, [w.console], 0, 0, total).events
      ensures outcome == LoopRun(w, [w.console], 0, 0, total).outcome
    {
      var limit: nat, sum: nat, offset: nat := Limit, Limit, 0;
      var projects := [w.console];
      var count: nat := 0;
      ghost var goal := Then(Run(log, Returned), LoopRun(w, projects, offset, count, total));

      while projects != []
        invariant Then(Run(log, Returned), LoopRun(w, projects, offset, count, total)) == goal
        decreases Unfetched(|w.registry|, offset), |projects|
      {
        ghost var next := FetchPage(w.registry, offset, Limit);
        ghost var report := Run([Fetched(offset, Limit, |next|), Progress(count + |projects|, total)], Returned);
        ghost var later := LoopRun(w, next, offset + Limit, count + |projects|, total);
        ghost var page := PageRun(w, projects);
        ghost var before := log;
        LoopRunStep(w, projects, offset, count, total);

        var r := MigratePage(w, projects, migration);
        if r != Returned {
          return r;
        }
        assert page == Run(page.events, Returned);
        Emit(before, page.events, Then(report, later));
        assert goal == Then(Run(log, Returned), Then(report, later));

        ghost var reported := log;
        sum := |projects|;
        projects := db.Find(limit, offset);
        FetchPageUnique(w.registry, offset, Limit, projects);
        log := log + [Fetched(offset, limit, |projects|)];
        offset := offset + limit;
        count := count + sum;
        log := log + [Progress(count, total)];
        assert log == reported + report.events;
        assert later == LoopRun(w, projects, offset, count, total);
        Emit(reported, report.events, later);
      }
      assert log + [] == log;
      return Returned;
    }
  }
}
