/** The behaviour of the batch migration driver (`Migrate::action`) as pure
    functions: every run is described by the trace of observable events it
    emits and by how it ends. The imperative driver in module Driver is proved
    to produce exactly these traces. */
module MigrationModel {

  /** A project (tenant) document: its external id and its internal id. */
  datatype Project = Project(id: string, internalId: string)

  /** The reserved id of the root (console) project. */
  const CONSOLE: string := "console"

  /** Number of registry records requested per page. */
  const Limit: nat := 30

  /** User projects that reuse the reserved id are not the root project. */
  predicate Skipped(p: Project) {
    p.id == CONSOLE && p.internalId != CONSOLE
  }

  /** Namespace selected on the console database. */
  datatype Namespace = DefaultNamespace | ConsoleNamespace

  /** How the migration of one project ended. */
  datatype Status = Executed | LookupFailed | ExecuteFailed

  /** Observable effects of a run, in the order they happen. */
  datatype Event =
    | AuthDisabled                                  // authorization checks switched off
    | VersionNotFound(version: string)              // error for an unknown version
    | Started(version: string)                      // "Starting Data Migration"
    | Counted(namespace: Namespace, ok: bool)       // count('projects'), and whether it returned
    | NamespaceSet(namespace: Namespace)            // setNamespace on the console database
    | Purged(project: Project, ok: bool)            // cache purge, and whether it succeeded
    | Migrated(project: Project, status: Status)    // project database lookup plus execute
    | Fetched(offset: nat, limit: nat, size: nat)   // find('projects') and the page size it returned
    | Progress(count: nat, total: nat)              // "Migrated count/total projects..."
    | Completed                                     // "Data Migration Completed"

  /** The exception a run ends with. */
  datatype Failure =
    | CountFailure
    | LookupFailure(project: Project)
    | ExecuteFailure(project: Project)

  /** How a run (or a part of one) ends. */
  datatype Outcome = Returned | Exited(code: int) | Raised(failure: Failure)

  datatype Run = Run(events: seq<Event>, outcome: Outcome)

  /** Sequential composition: `b` runs only when `a` returned normally. */
  function Then(a: Run, b: Run): Run {
    if a.outcome == Returned then Run(a.events + b.events, b.outcome) else a
  }

  /** The behaviour of the collaborators the driver talks to. */
  datatype World = World(
    catalog: map<string, string>,    // version -> migration class
    console: Project,                // the injected console document
    registry: seq<Project>,          // records of the 'projects' collection, in query order
    countFails: set<(Namespace, nat)>, // (namespace, attempt) pairs for which count('projects') throws;
                                       // attempt 0 is the first count of the run, 1 the retry
    purgeFails: set<string>,         // internal ids whose cache purge throws
    lookupFails: set<Project>,       // projects whose database lookup throws
    executeFails: set<Project>)      // projects whose migration throws

  function Min(a: int, b: int): int { if a <= b then a else b }

  /** The records a find with this limit and offset returns. */
  function FetchPage(records: seq<Project>, offset: nat, limit: nat): (page: seq<Project>)
    ensures |page| == if offset >= |records| then 0 else Min(limit, |records| - offset)
  {
    if offset >= |records| then [] else records[offset..offset + Min(limit, |records| - offset)]
  }

  /** A page holds the records from the offset on, in query order. */
  lemma FetchPageAt(records: seq<Project>, offset: nat, limit: nat, i: nat)
    requires i < |FetchPage(records, offset, limit)|
    ensures offset + i < |records| && FetchPage(records, offset, limit)[i] == records[offset + i]
  {
  }

  /** Length and contents determine the page. */
  lemma FetchPageUnique(records: seq<Project>, offset: nat, limit: nat, page: seq<Project>)
    requires |page| == if offset >= |records| then 0 else Min(limit, |records| - offset)
    requires forall i :: 0 <= i < |page| ==> offset + i < |records| && page[i] == records[offset + i]
    ensures page == FetchPage(records, offset, limit)
  {
    var r := FetchPage(records, offset, limit);
    forall i | 0 <= i < |page| ensures page[i] == r[i] {
      FetchPageAt(records, offset, limit, i);
    }
  }

  predicate PurgeSucceeds(w: World, p: Project) {
    p.internalId !in w.purgeFails
  }

  function PurgeEvent(w: World, p: Project): Event {
    Purged(p, PurgeSucceeds(w, p))
  }

  /** One iteration of the inner loop: skip rule, purge, migrate, purge. */
  function Visit(w: World, p: Project): Run {
    if Skipped(p) then Run([], Returned)
    else if p in w.lookupFails then
      Run([PurgeEvent(w, p), Migrated(p, LookupFailed)], Raised(LookupFailure(p)))
    else if p in w.executeFails then
      Run([PurgeEvent(w, p), Migrated(p, ExecuteFailed)], Raised(ExecuteFailure(p)))
    else
      Run([PurgeEvent(w, p), Migrated(p, Executed), PurgeEvent(w, p)], Returned)
  }

  /** The inner loop over one page. */
  function PageRun(w: World, page: seq<Project>): Run
    decreases |page|
  {
    if page == [] then Run([], Returned) else Then(Visit(w, page[0]), PageRun(w, page[1..]))
  }

  /** A measure of how much of the registry is still to be fetched. */
  function Unfetched(n: nat, offset: nat): nat {
    if offset <= n then n - offset + 1 else 0
  }

  /** The outer loop: process `page`, fetch the next page at `offset`, report. */
  function LoopRun(w: World, page: seq<Project>, offset: nat, count: nat, total: nat): Run
    decreases Unfetched(|w.registry|, offset), |page|
  {
    if page == [] then Run([], Returned)
    else
      var next := FetchPage(w.registry, offset, Limit);
      Then(PageRun(w, page),
        Then(Run([Fetched(offset, Limit, |next|), Progress(count + |page|, total)], Returned),
          LoopRun(w, next, offset + Limit, count + |page|, total)))
  }

  /** Counting the projects, with the single retry in the console namespace. */
  function CountRun(w: World, namespace: Namespace): Run {
    if (namespace, 0) !in w.countFails then
      Run([Counted(namespace, true)], Returned)
    else if (ConsoleNamespace, 1) !in w.countFails then
      Run([Counted(namespace, false), NamespaceSet(ConsoleNamespace), Counted(ConsoleNamespace, true)], Returned)
    else
      Run([Counted(namespace, false), NamespaceSet(ConsoleNamespace), Counted(ConsoleNamespace, false)],
        Raised(CountFailure))
  }

  /** A whole run of the driver, given the initial namespace of the console database. */
  function ActionRun(w: World, namespace: Namespace, version: string): Run {
    if version !in w.catalog then
      Run([AuthDisabled, VersionNotFound(version)], Exited(1))
    else
      Then(Run([AuthDisabled, Started(version)], Returned), UpgradeRun(w, namespace))
  }

  /** The part of a run after the version check: counting, the loop from the
      console page, and the completion message. */
  function UpgradeRun(w: World, namespace: Namespace): Run {
    Then(CountRun(w, namespace),
      Then(LoopRun(w, [w.console], 0, 0, |w.registry| + 1),
        Run([Completed], Returned)))
  }

  /** Every project the run walks through, in order. */
  function AllProjects(w: World): seq<Project> {
    [w.console] + w.registry
  }
}
