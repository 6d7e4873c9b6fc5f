# Appwrite batch migration driver

This project models the `migrate` CLI task of Appwrite, `Migrate::action`, and its helper `clearProjectsCache`. The task upgrades every project (tenant) to a target data version. It disables authorization checks and looks the version up in the migration catalog. It then counts the projects, retrying once in the `_console` namespace. It walks the console project first and then the registry's `projects` collection in pages of 30. For each project it applies the skip rule, purges the project's cache, migrates the project's database and purges again. After each page it reports progress. The first lookup or migration that throws aborts the whole run.

The model has two layers:

- **Pure specification** (`MigrationModel`). A run of the task is a `Run`: the trace of observable `Event`s it emits, in order, plus how it ends (`Returned`, `Exited(1)`, or `Raised` with the failure). The collaborators are captured by a `World` value:
  - the version catalog, as a map;
  - the console document;
  - the registry records, in query order;
  - the (namespace, attempt) pairs for which counting throws, so the first count and the retry fail or succeed independently;
  - the internal ids whose cache purge throws;
  - the projects whose database lookup or migration throws.

  `Visit` is one iteration of the `foreach`. `PageRun` and `LoopRun` are the `foreach` and the `while` loop, written as recursion over the page and over the pages still to fetch. `CountRun` is the count with its retry. `UpgradeRun` and `ActionRun` compose these in the order of the code.
- **Imperative driver** (`Driver`). Class `Migrate` has a `log` field that every effect is appended to. Its methods mirror the PHP code:
  - `Action` and `Upgrade`;
  - `CountProjects`, the try/catch around `count`;
  - `MigrateAll`, the `while` loop over pages that mutates `projects`, `offset`, `count` and `sum`;
  - `MigratePage`, the `foreach`;
  - `MigrateProject`, one iteration of the `foreach`;
  - `ClearProjectsCache`.

  `ConsoleDatabase` and `Migration` are classes for the collaborators whose state the driver changes: the selected namespace, and the project the migration object is bound to. Every method of class `Migrate` is proved to append exactly the events of the matching specification function and to end with its outcome. The collaborator methods (`Count`, `SetNamespace`, `Find`, `SetProject`, `SetPDO`, `Execute`) append nothing; their contracts state what each returns or changes.

The properties of the task are proved about the specification functions in three modules:

- `PageProperties` covers one page.
- `LoopProperties` covers the pagination loop and the states it passes through.
- `RunProperties` covers a whole run.

A run is viewed through `Observation.Select`, which keeps the events of one kind. `Observation.Erase` forgets purge results. A reference description of the project events is also defined: `Kept`, `FailIndex`, `Triples` and `Attempt`.

Two facts about the code that the model keeps:

- **Number of fetches.** The loop makes `ceil(N / 30) + 1` registry fetches for `N` records, because the console page is followed by a fetch too and the loop stops only after a fetch returns an empty page: 3 for `N = 45`, and 3 for `N = 60` (`LoopProperties.Fetches`).
- **Migration object.** The migration object is built once (Migrate.php:75-77) and rebound to each project with `setProject`/`setPDO` (Migrate.php:94-97). `Driver.Migrate.Upgrade` builds one `Migration`, and `MigrateProject` rebinds it.

## Model

| member | source | states |
|---|---|---|
| MigrationModel.Skipped | src/Appwrite/Platform/Tasks/Migrate.php:84 | a project is skipped exactly when its id is the reserved `console` and its internal id is not |
| MigrationModel.Visit | src/Appwrite/Platform/Tasks/Migrate.php:84-103 | one project: nothing for a skipped project; otherwise a purge, then the migration; a throwing lookup or migration ends the iteration with that failure and no second purge, and a successful one is followed by a second purge |
| MigrationModel.PageRun | src/Appwrite/Platform/Tasks/Migrate.php:80-104 | the foreach: the iterations of the page's projects in order, stopping at the first one that raises |
| MigrationModel.LoopRun | src/Appwrite/Platform/Tasks/Migrate.php:79-113 | the while loop: stop on an empty page; otherwise process the page, fetch 30 records at the current offset, add the page size to the processed count, report progress, and continue 30 records further on |
| MigrationModel.CountRun | src/Appwrite/Platform/Tasks/Migrate.php:68-73 | count the projects in the selected namespace; if that attempt throws, select the console namespace and count once more, and a throw of that second attempt ends the run with the count failure; each attempt's failure is decided separately |
| MigrationModel.UpgradeRun | src/Appwrite/Platform/Tasks/Migrate.php:57-115 | after the version check: count, run the loop from the console page at offset 0 and count 0 with total N + 1, then report completion if the loop returned |
| MigrationModel.ActionRun | src/Appwrite/Platform/Tasks/Migrate.php:47-116 | a whole run: disable authorization; an unknown version is reported and exits with status 1; otherwise report the start and continue as `UpgradeRun` |
| MigrationModel.FetchPage | src/Appwrite/Platform/Tasks/Migrate.php:107 | a page holds min(limit, remaining) records, and none at or beyond the end of the collection |
| MigrationModel.FetchPageAt | src/Appwrite/Platform/Tasks/Migrate.php:107 | the i-th record of a page is the record at position offset + i of the collection |
| Observation.Kept | src/Appwrite/Platform/Tasks/Migrate.php:84-86 | the projects the skip rule lets through are exactly those of the input that are not user projects with the reserved id |
| Observation.FailIndex | src/Appwrite/Platform/Tasks/Migrate.php:90-101 | the index found is that of the first project whose lookup or migration throws, or the length when none does |
| PageProperties.PageRunClosedForm | src/Appwrite/Platform/Tasks/Migrate.php:80-104 | the foreach over a page purges, migrates and purges every kept project up to the first failing one; that one gets its pre-purge and failed migration, and it raises that project's failure |
| PageProperties.PageGood | src/Appwrite/Platform/Tasks/Migrate.php:88-103 | within a page, every successful migration sits between two purges of its project, and only a raising page contains a failed migration, as its last event |
| PageProperties.VisitAlike | src/Appwrite/Platform/Tasks/Migrate.php:38-45 | whether a project's cache purges fail changes nothing of its iteration except the purge results |
| PageProperties.PageAlike | src/Appwrite/Platform/Tasks/Migrate.php:80-104 | cache failures change neither a page's outcome nor any of its events except purge results |
| LoopProperties.LoopGood | src/Appwrite/Platform/Tasks/Migrate.php:79-113 | purge-migrate-purge adjacency and the fail-fast ending hold for the whole paginated loop from any state |
| LoopProperties.LoopAlike | src/Appwrite/Platform/Tasks/Migrate.php:79-113 | cache failures change neither the paginated loop's outcome nor its events except purge results |
| LoopProperties.LoopEventKinds | src/Appwrite/Platform/Tasks/Migrate.php:79-113 | the loop emits only purges, migrations, fetches and progress reports |
| LoopProperties.PendingEmpty | src/Appwrite/Platform/Tasks/Migrate.php:79 | the page of iteration j is empty exactly when j >= ceil(N/30) + 1, so the loop stops after that many fetches |
| LoopProperties.LoopStep | src/Appwrite/Platform/Tasks/Migrate.php:106-110 | iteration j processes its page, fetches at offset 30j, adds the page size to the count and moves to state j + 1; the remaining projects split into this page and those after it |
| LoopProperties.LoopProjects | src/Appwrite/Platform/Tasks/Migrate.php:79-113 | pagination is transparent: from state j the purges and migrations, and the outcome, are those of one foreach over all remaining projects |
| LoopProperties.LoopFetches | src/Appwrite/Platform/Tasks/Migrate.php:107-109 | from state j the fetches are a prefix of the schedule (offset 30i, limit 30), and all of it when the loop returns |
| LoopProperties.LoopProgress | src/Appwrite/Platform/Tasks/Migrate.php:106-112 | from state j the progress reports are a prefix of their schedule, and all of it when the loop returns |
| LoopProperties.FetchSizes | src/Appwrite/Platform/Tasks/Migrate.php:107 | the i-th fetch of a complete run returns an empty page exactly when it is the last one |
| LoopProperties.LastProgress | src/Appwrite/Platform/Tasks/Migrate.php:110-112 | the last progress report counts every record plus the console project |
| LoopProperties.FetchReports | src/Appwrite/Platform/Tasks/Migrate.php:59-109 | the i-th fetch of the loop asks for limit 30 at offset 30i; a loop that returns fetches exactly ceil(N/30) + 1 times, and only the last page is empty |
| LoopProperties.ProgressReports | src/Appwrite/Platform/Tasks/Migrate.php:106-112 | the i-th progress report is 1 + min(30i, N) out of the total, and a loop that returns reports ceil(N/30) + 1 times, ending at N + 1 |
| RunProperties.ActionUnfold | src/Appwrite/Platform/Tasks/Migrate.php:57-115 | a run with a known version and a successful count is the preamble, then the loop from the console page, then the completion message if the loop returned |
| RunProperties.ProjectTrace | src/Appwrite/Platform/Tasks/Migrate.php:65-113 | the purges and migrations of a run whose version is known and whose count succeeds are those of the reference description over the console followed by all registry records |
| RunProperties.UnknownVersion | src/Appwrite/Platform/Tasks/Migrate.php:49-54 | the run exits with status 1 if and only if the version is not in the catalog, and then it has only disabled authorization and reported the error: no count, fetch, purge or migration |
| RunProperties.AuthorizationFirst | src/Appwrite/Platform/Tasks/Migrate.php:49 | authorization is disabled as the first event of every run, and only once |
| RunProperties.CountRetry | src/Appwrite/Platform/Tasks/Migrate.php:68-73 | the count is issued once and, when it throws, retried once after selecting the console namespace; the run raises the count failure exactly when both attempts throw, and then nothing else happens |
| RunProperties.RetryInSameNamespace | src/Appwrite/Platform/Tasks/Migrate.php:68-73 | a first count that throws with the console namespace already selected is followed by a retry in the same namespace, which can succeed |
| RunProperties.RunOutcome | src/Appwrite/Platform/Tasks/Migrate.php:47-116 | a run ends with status 1 for an unknown version, with the count failure when both counts throw, with the failure of the first kept project whose lookup or migration throws, or normally |
| RunProperties.ActionGood | src/Appwrite/Platform/Tasks/Migrate.php:88-103 | a whole run satisfies purge-migrate-purge adjacency and the fail-fast ending |
| RunProperties.UpgradeGood | src/Appwrite/Platform/Tasks/Migrate.php:68-115 | counting, the loop and the completion message together satisfy purge-migrate-purge adjacency and the fail-fast ending |
| RunProperties.PurgeMigratePurge | src/Appwrite/Platform/Tasks/Migrate.php:88-103 | every successful migration is immediately preceded and immediately followed by a purge of the same project |
| RunProperties.FailFast | src/Appwrite/Platform/Tasks/Migrate.php:90-115 | a run that raises for project p ends with p's pre-purge and failed migration; there is no post-purge, no later project or page, no earlier failed migration and no completion message |
| RunProperties.SuccessfulRun | src/Appwrite/Platform/Tasks/Migrate.php:79-115 | a run that returns had a known version and a successful count, migrated every kept project between its purges in order, and ends with the completion message |
| RunProperties.MigratedInOrder | src/Appwrite/Platform/Tasks/Migrate.php:80-104 | in a run that returns, the k-th kept project's purge, migration and purge are project events 3k, 3k+1 and 3k+2 |
| RunProperties.RootMigratedOnce | src/Appwrite/Platform/Tasks/Migrate.php:65-104 | when the console project is not skipped and the registry does not hold it, it is migrated at most once in every run and exactly once in a run that returns, even when a user project reuses its id |
| Observation.TriplesCount | src/Appwrite/Platform/Tasks/Migrate.php:80-104 | the successful migrations of a run without failures number exactly the occurrences of each project in the sequence walked |
| RunProperties.FailedRunTrace | src/Appwrite/Platform/Tasks/Migrate.php:90-101 | a run that raises for a project migrated every kept project before it completely and touched nothing after it |
| RunProperties.SkipRule | src/Appwrite/Platform/Tasks/Migrate.php:84-86 | no user project with the reserved id is ever purged or migrated, and every project touched is the console or a registry record |
| RunProperties.PageProjects | src/Appwrite/Platform/Tasks/Migrate.php:80-104 | a page only purges and migrates its own projects that the skip rule keeps |
| RunProperties.ConsoleFirst | src/Appwrite/Platform/Tasks/Migrate.php:65-107 | right after the preamble come the console project's purge and migration events, before any registry fetch |
| RunProperties.FetchOffsets | src/Appwrite/Platform/Tasks/Migrate.php:59-109 | the i-th registry fetch of any run uses limit 30 and offset 30i; a run that returns fetches ceil(N/30) + 1 times, and only its last page is empty |
| RunProperties.ProgressCounts | src/Appwrite/Platform/Tasks/Migrate.php:69-112 | after the i-th page the count is 1 + min(30i, N) out of N + 1, skipped projects included; a run that returns reports ceil(N/30) + 1 times and ends at N + 1 of N + 1 |
| RunProperties.FortyFiveProjects | src/Appwrite/Platform/Tasks/Migrate.php:59-112 | with 45 records and no failure, the run returns, fetches 30, 15 and 0 records at offsets 0, 30 and 60, and reports 1, 31 and 46 out of 46 |
| RunProperties.CacheFailuresHarmless | src/Appwrite/Platform/Tasks/Migrate.php:38-45 | two worlds that differ only in which cache purges throw give runs with the same outcome and the same events up to purge results |
| Driver.ConsoleDatabase.Count | src/Appwrite/Platform/Tasks/Migrate.php:69-72 | each count returns the number of records unless that attempt throws in the selected namespace, and increments the number of counts issued |
| Driver.ConsoleDatabase.Find | src/Appwrite/Platform/Tasks/Migrate.php:107 | a find returns min(limit, remaining) records, none at or beyond the end, and its i-th record is the record at position offset + i |
| Driver.GetProjectDB | src/Appwrite/Platform/Tasks/Migrate.php:93 | the project database lookup fails exactly for the projects whose lookup throws, and otherwise yields that project's handle |
| Driver.Migration.Execute | src/Appwrite/Platform/Tasks/Migrate.php:94-97 | executing the migration of the bound project succeeds unless that project's migration throws |
| Driver.Migration.constructor | src/Appwrite/Platform/Tasks/Migrate.php:75-77 | the migration object of the requested version's class is created once, bound to no project and without a connection handle |
| Driver.Migration.SetProject | src/Appwrite/Platform/Tasks/Migrate.php:95 | the migration object is rebound to the given project and database |
| Driver.Migration.SetPDO | src/Appwrite/Platform/Tasks/Migrate.php:96 | the raw connection handle is set, and the bound project and database are kept |
| Driver.ConsoleDatabase.SetNamespace | src/Appwrite/Platform/Tasks/Migrate.php:71 | the given namespace is selected on the console database |
| Driver.Migrate.ClearProjectsCache | src/Appwrite/Platform/Tasks/Migrate.php:38-45 | a purge appends one purge event with its result, and a failure is swallowed |
| Driver.Migrate.MigrateProject | src/Appwrite/Platform/Tasks/Migrate.php:84-103 | one iteration appends exactly the events of `Visit` and ends with its outcome; when the project is not skipped and its lookup succeeds, the migration object is left bound to it with the connection handle set, and otherwise its binding is unchanged |
| Driver.Migrate.MigratePage | src/Appwrite/Platform/Tasks/Migrate.php:80-104 | the foreach appends exactly the events of `PageRun` and stops at the first project that raises |
| Driver.Migrate.MigrateAll | src/Appwrite/Platform/Tasks/Migrate.php:59-113 | the while loop, from the console page at offset 0 and count 0, appends exactly the events of `LoopRun` and ends with its outcome |
| Driver.Migrate.CountProjects | src/Appwrite/Platform/Tasks/Migrate.php:68-73 | the count with its retry appends the events of `CountRun`, yields the number of records exactly when `CountRun` returns, selects the console namespace if the first count threw, and otherwise leaves the namespace unchanged |
| Driver.Migrate.Upgrade | src/Appwrite/Platform/Tasks/Migrate.php:57-115 | everything after the version check appends the events of `UpgradeRun` and ends with its outcome |
| Driver.Migrate.Action | src/Appwrite/Platform/Tasks/Migrate.php:47-116 | the task appends exactly the events of `ActionRun` and ends with its outcome, which is `Exited(1)` if and only if the version is unknown |

## Left out

- The internals of the migration classes and of `Migration::$versions`. The catalog is an abstract map from version to class name, and whether a project's migration throws is a field of `World`.
- The cache engine and the key pattern `cache-_{internalId}:*`. A purge is an abstract call that fails for a given set of internal ids, so both purges of a project fail or succeed together.
- The Registry/PDO connection handle (`$register->get('db', true)`) and the database query engine. `Migration.SetPDO` only records that a handle was set. The registry is a sequence of records in query order, and the per-project lookup is a function that may fail.
- The CLI wiring: constructor, `param`, `inject`, `callback`, the `Text(8)` validator and `APP_VERSION_STABLE`. The version is a parameter of `Action`.
- Console message text. Each message is an abstract event (`VersionNotFound`, `Started`, `Progress`, `Completed`), and the error messages of failed purges and migrations are folded into the `Purged` and `Migrated` events.
- `Authorization::disable` as process-wide state. It is recorded only as the first event, `AuthDisabled`.
- The namespace as something that changes what the queries return. In the source, `count` (lines 69 and 72) and `find` (line 107) are separate queries against whichever namespace is selected. In the model, `ConsoleDatabase.Count` returns the number of records whenever it succeeds, and `ConsoleDatabase.Find` ignores the namespace, so the registry is the same before and after `setNamespace('_console')`. The total N + 1 and the last report N + 1 of N + 1 (`RunProperties.ProgressCounts`) rest on this.
- Throws from `setProject`, `setPDO` or `$register->get` (lines 95-96). They take the same catch path as `execute()` and are folded into `ExecuteFailed`.
- A throw from `new $class($auth)` (line 77). It is not modelled; building the migration object always succeeds.
- A `find('projects')` call that throws. The source does not catch it, and the model has every find succeed.
- Exceptions are modelled as `Raised` outcomes. The driver returns them rather than unwinding.

