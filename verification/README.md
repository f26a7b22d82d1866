# Flynn in Dafny

A model of the stateful parts of Flynn, with proofs of what they keep:

- **Router.** `Paths`, `TrieShape`, `PathTrie`: the mutable path trie, proved to be a finite map from lists of path
  segments to backends, with longest-prefix lookup and exact pruning. `Routes`, `HostKeys`, `RouteTable`,
  `DomainSearch`, `HttpListener`: routes by ID, a trie per domain and port, and counted services, updated together.
  `RouteSync`, `Syncer`: reconciling that table with a store by watching, listing and replaying. `WatchManager`:
  fan-out of backend events. `Drain`: waiting for requests in flight.
- **Image builder.** `BuildGraph`, `BuildMachine`, `BuildRuns`, `BuildScheduler`: the build loop with its goroutines,
  semaphore and channel, on every interleaving. `GoInputs`, `ImportPaths`, `LoadRaces`: the memoised loader of Go
  files, what it returns in terms of import paths, and loads that race through singleflight.
- **Host.** `JobTable`, `JobLives`, `JobState`: the job registry with its write-through database copy, its bounded
  lists of down jobs and their archive, over restarts of its process. `Heartbeat`: racing registrations with discoverd.
- **Databases.** `SyncWaiter`, `WriteSafety`, `RoleProgress`, `SyncedDownstream`: when and for whom PostgreSQL is
  opened for writes, that it comes to be opened, and which downstream is reported as synced. `ReplicaSet`: the member
  IDs of a MongoDB replica set.
- **Controller.** `EventStream`: streaming past and new events without a gap.

Code that updates fields or maps in place is a class with methods; the goroutines of a concurrent part are steps of a
state machine, or methods that are called in any order, and a theorem about a machine is about all its runs. A nil map
and an empty one are one value. The outside world is a parameter or a nondeterministic result: clocks, discoverd,
`net.SplitHostPort`, the result of `sort.Sort`, the Go build context, BuildImage, SQL, commands and signals. Go's `nil`
is an `Option`, or a separate outcome.

Where a promise does not hold of the code, the code is kept, a lemma shows a failing case, and another one says exactly
when the promise holds:

- Table and tries stop agreeing when a domain has upper-case letters, because Set lower-cases the key and Remove does
  not (`RouteTable.UpperCaseRouteStaysFiled`), or when a route changes its port or path, which the store allows
  (controller/data/queries.go:661-665), because Set does not withdraw the former entry
  (`RouteTable.MovedRouteStaysFiled`), or when two routes spell one path in two ways, because they have one place in
  the trie (`RouteTable.SpellingsCollide`). The exact conditions are `SetAgreesIff`, `RemoveAgreesIff` and
  `RunAgreesIff`. The table by itself follows the store in all these cases (`Syncer.TableConverges`).
- The reference count of a service exceeds its live routes after a known ID is set again
  (`HttpListener.ExactAfterSetIff`).
- Build waits forever exactly when an image depends on itself (`BuildScheduler.BuildImages`).
- A down job that is persisted again may push itself out of its list, and null is saved for it
  (`JobTable.ForceStopForgets`, with `TrackedKeptIff` and `WrittenKeptIff`). After a restart it is a starting job
  without a name (`JobLives.ForgottenStartsAgain`). A status that changes while the database is closed is missed, also
  when the database is opened again in the same process, as a failed update does (host/update.go:88-130): not
  everything is written through then although no null is saved (`JobLives.ReopenedMisses`), a restart brings the
  earlier status back (`ClosedChangeIsLost`), and two active jobs may share a volume (`VolumeIsShared`). A restart
  keeps a job if and only if what is saved of it is its live record (`RestartKeepsJobIff`), and all jobs if and only if
  no null is saved and nothing was missed (`RestartKeepsIff`). The promises hold job by job over all lives in which
  that was so, whatever became of the other jobs (`EveryLife`, `StatusOnlyForward`).
- Replica set IDs collide for a singleton with asyncs, but for one case (`ReplicaSet.DistinctIdsIff`).
- A client that resumes with an ID beyond the subscription is sent earlier events when the list is empty
  (`EventStream.StreamBeforeLastId`, with `StreamIsExactIff`).
- An open PostgreSQL primary that is asked to have no role stays open (`WriteSafety.NoRoleStaysOpen`), and one that a
  waiter has yet to open is opened by it (`NoRoleIsOpened`). Configured for another downstream then, its writes go on
  waiting for the former one (`FormerDownstreamRemains`). The exact condition is `RoleIsNeeded`, and under it
  `OpenOnlyAsConfigured` holds on every run.
- A heartbeat attempt that is under way can register the host after Close (`Heartbeat.CloseIsFinalIff`).

## Model

| member | source | states |
|---|---|---|
| Paths.SliceStep | router/tree.go:99-111 | one call of slice takes one segment off a path, drops an empty one, and leaves the index of the rest, or -1 at the end |
| Paths.WalkJoin | router/tree.go:22-35 | walking the segments of a concatenated path is walking the parts one after the other, wherever it is cut at a slash |
| Paths.SegmentsOfSpell | router/tree.go:98-111 | round trip: spelling out a list of proper segments and slicing it again gives the same list |
| Paths.WalkIsProper | router/tree.go:98-111 | walking any path adds only non-empty segments without slashes |
| TrieShape.BestMatchIsLongest | router/tree.go:39-62 | the reference answer is the value at the longest registered prefix, and none exactly when no prefix is registered |
| TrieShape.MatchStops | router/tree.go:45-49 | where the trie has no child for the next segment, the best match of the whole path is the best match so far |
| TrieShape.PrunedCut | router/tree.go:86-94 | dropping an empty leaf moves the one place where emptiness is tolerated to its parent |
| TrieShape.PositionsAreExact | router/tree.go:69-96 | a pruned trie has a node exactly at the prefixes of registered paths |
| TrieShape.PositionsAreDetermined | router/tree.go:69-96 | the positions of a pruned trie are determined by the registered paths |
| PathTrie.Node.constructor | router/tree.go:7-12 | NewTree is a trie with one entry at the root |
| PathTrie.Node.Insert | router/tree.go:20-37 | Insert is map update: one key gets the backend, every other keeps its own, nodes stay in place, and the trie stays pruned |
| PathTrie.Node.Lookup | router/tree.go:40-62 | Lookup is the backend of the longest registered prefix of the path, or none |
| PathTrie.Node.Remove | router/tree.go:69-96 | Remove is map removal: one key goes, every other keeps its backend, and the trie stays pruned |
| PathTrie.Node.Prune | router/tree.go:86-95 | the backwards loop leaves the map alone and removes exactly the nodes that no entry needs |
| PathTrie.SameMapSameShape | router/tree.go:14-96 | two tries that represent one map have nodes at the same positions, with the same children and backends |
| PathTrie.InsertThenRemove | router/tree.go:20-96 | inserting a fresh path and removing it again restores the map and the identical nodes and links |
| Routes.LowerSeekKey | router/http.go:270-307 | lower-casing the key that Remove uses gives the key that Set uses |
| Routes.KeysAgree | router/http.go:270-307 | Set and Remove use one key for a route if and only if its domain has no upper-case letters |
| HostKeys.DigitsDenote | router/http.go:431 | a port is written in decimal digits, without leading zeros |
| HostKeys.KeyGivesHost | router/http.go:270 | routes are filed under one key if and only if they have one lower-case domain and one port |
| DomainSearch.CandidatesAre | router/http.go:437-450 | findRoute tries the domain first and the catch-all last, and between them exactly the wildcards of the domain and of what follows each of its first four dots, each longer than the next |
| HttpListener.RequestSeeks | router/http.go:426-437 | a request looks first for exactly the routes of its own host, lower-cased and without its port, and of its own port, a default port being port 0 |
| RouteTable.SetAt | router/http.go:269-283 | what Set does to each place of each trie: its own place only, and only if its domain has a trie or its path is the root |
| RouteTable.RemoveAt | router/http.go:306-314 | what Remove does to each place: its own entry goes, with a root route the whole trie goes, every other stays |
| RouteTable.SetAgreesIff | router/http.go:214-287 | Set keeps table and tries in agreement if and only if the sub-path route finds its domain, the ID keeps its place, and no other live route has it |
| RouteTable.RemoveAgreesIff | router/http.go:289-317 | Remove keeps them in agreement if and only if both keys are one and a root route is the last of its domain |
| RouteTable.RunAgreesIff | router/http.go:214-317 | on every run of Set and Remove table and tries agree throughout if and only if every operation is safe where it stands |
| RouteTable.AnswerIsLongestLive | router/http.go:439-441 | where they agree, a trie answers with the longest path match among the live routes, and with nothing exactly when none matches |
| RouteTable.UpperCaseRouteStaysFiled | router/http.go:270-314 | a route with an upper-case domain that is set and removed is gone from the table and still in its trie |
| RouteTable.MovedRouteStaysFiled | router/http.go:269-283 | every route that moves to another place leaves its former entry behind as a stale one |
| RouteTable.SpellingsCollide | router/http.go:269-283 | a route whose path is spelled with one more slash displaces the live route of the other spelling, which then is live and not filed |
| HttpListener.ServedIsLongestLive | router/http.go:436-454 | the served route is the longest path match under the first key that has live routes |
| HttpListener.UnservedMatchesNone | router/http.go:439-441 | if nothing is served, no live route of exactly that host and port matches the path |
| HttpListener.CountedAfterSet | router/http.go:234-269 | after Set every live route has a listed service, and every service counts at least its live routes |
| HttpListener.CountedAfterRemove | router/http.go:295-306 | after Remove the same holds, whether the service was closed with its last reference or not |
| HttpListener.ExactAfterSetIff | router/http.go:252-269 | exact counts stay exact on Set if and only if the ID is new |
| HttpListener.ExactAfterRemove | router/http.go:300-306 | exact counts stay exact on Remove |
| HttpListener.Listener.AcquireService | router/http.go:234-252 | a listed service is counted once more, an unlisted one is created if its cache can be, and nothing changes otherwise |
| HttpListener.Listener.ReleaseService | router/http.go:300-304 | one reference goes; with the last one the service is closed and unlisted |
| HttpListener.Listener.File | router/http.go:270-283 | the route enters the trie of its key as the table model says, in place, and no other trie changes |
| HttpListener.Listener.Withdraw | router/http.go:307-314 | the route leaves the trie as the table model says, in place, and no other trie changes |
| HttpListener.Listener.Set | router/http.go:214-287 | Set enters a new route object in both indexes and counts its service; a bad certificate, a failing cache and a closed listener change nothing; every live route keeps a listed, open service |
| HttpListener.Listener.Remove | router/http.go:289-317 | Remove takes the route out of both indexes and discounts its service; an unknown ID is an error; every live route keeps a listed, open service |
| HttpListener.Listener.FindRoute | router/http.go:425-455 | findRoute answers from the trie of the exact domain, else from that of the longest wildcard of it that has one, else from the catch-all, else nothing |
| RouteSync.WatchThenListConverges | router/sync.go:30-80 | replaying all watched changes over a list taken anywhere among them ends at the current store |
| RouteSync.ReplayForgets | router/sync.go:64-79 | replaying the same changes over two stores that differ only on touched IDs ends in one store |
| RouteSync.SpotsRun | router/sync.go:64-97 | whatever the table holds, handling events changes its routes exactly as the store changed |
| RouteSync.InitialPhaseLists | router/sync.go:44-61 | from any table, setting what is listed and removing the rest leaves exactly the listed routes in the table |
| RouteSync.InitialPhaseAgrees | router/sync.go:44-61 | without stale entries before, and with every root listed before its sub-paths, it leaves exactly the listed routes filed |
| RouteSync.ReplayAgrees | router/sync.go:64-97 | handling events that the list reflects already or not ends with table and tries in agreement, although the table is behind or ahead of the store in between |
| RouteSync.CarriedFit | router/sync.go:44-97 | every single operation leaves a table that a Sync can start from, so one that breaks off can be followed by another |
| RouteSync.RootStaysFiled | router/sync.go:64-97 | while a route stays in the store, the root entry of its trie is a route that stays too, although older events are replayed |
| RouteSync.SortPutsRootsFirst | router/sync.go:99-113 | sorting by domain and path puts every root route before the sub-path routes of its domain |
| Syncer.SetListed | router/sync.go:44-55 | the first loop sets the listed routes of the type in order and strikes their IDs off; on an error what was set stays set; it fails only if a certificate or the cache of a listed route of the type fails, and always if a certificate does |
| Syncer.RemoveUnlisted | router/sync.go:56-61 | the second loop removes exactly the IDs that were not listed, in any order |
| Syncer.SyncInitial | router/sync.go:30-62 | the initial phase is the one run of the table model that the convergence theorem is about |
| Syncer.HandleUpdate | router/sync.go:82-97 | an event is carried out; a removal never fails, also of an unknown route; a set fails exactly if the certificate does, or the cache of a service that is not known yet, and the listener is open; an unknown event fails |
| Syncer.SyncEvents | router/sync.go:64-79 | the event loop carries out the events of its type in order and passes over the others, until an event fails, the stream ends or the context is done; it fails only at an event of its type that is unknown or whose certificate or cache fails |
| Syncer.OwnInOrder | router/sync.go:42-48 | passing over other types keeps the order that sorting made |
| Syncer.ListsPermuted | router/sync.go:42 | sorting changes nothing about what is listed |
| Syncer.TableFollows | router/sync.go:30-97 | from any stale table, initial phase and events lead to what the events make of the listed routes |
| Syncer.TableConverges | router/sync.go:30-97 | from any stale table, against every history and with the list taken anywhere in it: the table ends as exactly the current store |
| Syncer.TriesConverge | router/sync.go:30-97 | against a store that is in order throughout, and without stale entries before, table and tries agree in the end |
| Syncer.Sync | router/sync.go:30-97 | the whole of Sync on the listener: once started, however it ends, the table is what the events taken make of the listed routes; if they include those that the list reflects, it is exactly the current routes of its type; for an orderly store table and tries agree; it fails to start only if a Set of a listed route fails, and later only at an event that fails |
| Syncer.SyncedTableServesStore | router/http.go:425-455 | after a Sync a request is served the longest path match among the store's current routes, under the first key that has any |
| BuildGraph.WantsNeeded | builder/build.go:572-588 | of the names that Build looks up for an image, those that count are the known images among its base and the builders of its layers |
| BuildGraph.CatalogIs | builder/build.go:551-554 | there is one build per ID, of the last image with it |
| BuildGraph.DepsAre | builder/build.go:556-589 | an image depends on another if and only if that is built too and is its base, or is what a layer says that it is built with, or is protoc for a layer that says nothing and compiles protocols, or is go for one that says nothing, compiles no protocols and compiles Go |
| BuildGraph.NoWayOut | builder/build.go:571 | a non-empty set of images in which each depends on another of the set holds a cycle (pigeonhole over a walk) |
| BuildGraph.RankedIsAcyclic | builder/build.go:571 | an order in which dependencies come first rules out cycles |
| BuildMachine.StepKeeps | builder/build.go:611-662 | every step of the loop and of the goroutines keeps the invariant of waits, aborts, channel, semaphore and history |
| BuildMachine.StartedIsReady | builder/build.go:614-631 | a started build has all its dependencies completed, and without error unless it is aborted |
| BuildRuns.SendsNeverBlock | builder/build.go:608-630 | a send to done always finds room |
| BuildRuns.AbortedIffFailedBelow | builder/build.go:616-658 | a started build is skipped as aborted if and only if an image that it depends on, directly or not, failed |
| BuildRuns.StuckIsCyclic | builder/build.go:611-637 | if nothing can happen before the end, some image depends on itself |
| BuildRuns.FinishedIsAcyclic | builder/build.go:611-662 | if the loop ends, no image depends on itself: the order of completion is a rank |
| BuildRuns.EndsIffAcyclic | builder/build.go:571-662 | on every interleaving, once nothing can happen the loop has ended if and only if the graph is acyclic |
| BuildRuns.RunsEnd | builder/build.go:611-662 | every run is finite: its length is bounded by a measure that every step lowers |
| BuildRuns.SomeInFlight | builder/build.go:606-637 | while builds are pending on an acyclic graph, a finished scan leaves one in flight or in the channel |
| BuildRuns.NeverCrowded | builder/build.go:606-629 | on every run, at every moment of its history, at most `concurrency` BuildImage calls run at once |
| BuildRuns.EndedWell | builder/build.go:611-672 | at the end every image completed once, BuildImage began only after it succeeded for all dependencies, and skipped are exactly those with a failure below |
| BuildScheduler.Build.constructor | builder/build.go:438-444 | a new build has no dependencies, no dependents and no error |
| BuildScheduler.Build.AddDependency | builder/build.go:446-448 | adds one dependency |
| BuildScheduler.Build.RemoveDependency | builder/build.go:450-452 | removes one dependency |
| BuildScheduler.Build.AddDependent | builder/build.go:454-456 | adds one dependent |
| BuildScheduler.AddDependency | builder/build.go:556-564 | an edge is added forwards and backwards if the image is known, and nothing changes otherwise |
| BuildScheduler.LayerBuilder | builder/build.go:575-586 | the builder of a layer: its own, else protoc, else go, else none |
| BuildScheduler.Setup | builder/build.go:551-589 | the builds are one per ID, of the last image with it, linked by exactly the edges of the dependency graph in both directions |
| BuildScheduler.EdgesAreNeeds | builder/build.go:556-589 | so two builds are linked, in both directions, if and only if the image of one needs the other as base or as the builder of a layer |
| BuildScheduler.Strike | builder/build.go:650-658 | a finished build is struck off its dependents, which are aborted if it failed or was aborted |
| BuildScheduler.Scheduler.Visit | builder/build.go:612-633 | a visited build starts once, and only without pending dependencies; an aborted one is sent to done instead |
| BuildScheduler.Scheduler.Acquire | builder/build.go:626-629 | a goroutine enters the semaphore while there is room: a step of the machine |
| BuildScheduler.Scheduler.Finish | builder/build.go:629 | BuildImage returns and its error is kept: a step of the machine |
| BuildScheduler.Scheduler.Send | builder/build.go:630 | a goroutine sends its build without blocking: a step of the machine |
| BuildScheduler.Scheduler.Receive | builder/build.go:637-662 | a build is taken out of done and of the pending builds, its dependents are updated, its failure is noted: a step of the machine |
| BuildScheduler.Scheduler.Await | builder/build.go:636-637 | waiting for done ends, unless no goroutine can go on, and then the graph has a cycle |
| BuildScheduler.Scheduler.Loop | builder/build.go:611-663 | the loop ends with every build received, or waits forever on a cyclic graph |
| BuildScheduler.BuildImages | builder/build.go:550-673 | Build waits forever if and only if some image depends on itself; otherwise, on every interleaving, every image completes, builds start after their dependencies succeeded and at most `concurrency` at once, skipped are exactly those with a failure below, and the failures are exactly the images that were not skipped and for which BuildImage fails |
| GoInputs.HitIsPlain | builder/build.go:1542-1547 | a cache hit is what the uncached recursion would return, whatever else is being loaded |
| GoInputs.StoreKeeps | builder/build.go:1560-1600 | what a load stores keeps the cache equal to the uncached recursion |
| GoInputs.Loader.Load | builder/build.go:1541-1601 | from every cache that is right, load returns what the uncached recursion returns, errors included, and keeps the cache right |
| GoInputs.Loader.LoadImports | builder/build.go:1568-1591 | a package's own files and those of its imports in order, up to the first error |
| GoInputs.Loader.LoadDir | builder/build.go:1515-1539 | Load returns the directory's own files and then each file of its imports once, at its first place |
| GoInputs.PlainIsComplete | builder/build.go:1541-1601 | a load returns exactly the files of the packages outside the standard library that the package is or imports, directly or not |
| ImportPaths.SourcesAre | builder/build.go:1567-1579 | the sources of a package are all its Go, cgo, C, header, assembler and ignored Go files, and no other |
| ImportPaths.LoadReturns | builder/build.go:1541-1601 | a load returns exactly the files of the packages outside the standard library to which a path of imports leads; it fails only if one leads to a package that cannot be imported, and always then unless imports are cyclic |
| GoInputs.RequiredIsExact | builder/build.go:1515-1539 | after the own Go files, every transitively imported file outside the standard library is there exactly once and nothing else |
| GoInputs.AcyclicLoadsEnd | builder/build.go:1549-1592 | on an acyclic import graph no load waits for itself |
| GoInputs.LoadedIsAcyclic | builder/build.go:1549-1592 | a package that was loaded does not import itself |
| LoadRaces.PlainIsEach | builder/build.go:1549-1592 | on an acyclic import graph a package needs its own files and those of its imports, each as if loaded on its own |
| LoadRaces.StepKeeps | builder/build.go:1541-1601 | every step of every goroutine keeps cache and calls right: what is cached, returned or handed to waiting goroutines is what the uncached recursion returns |
| LoadRaces.StepFalls | builder/build.go:1541-1601 | every step leaves less to do, so every run of racing loads ends |
| LoadRaces.StuckIsCyclic | vendor/github.com/golang/groupcache/singleflight/singleflight.go:40-64 | goroutines wait for one another forever only where packages import one another in a cycle |
| LoadRaces.RacingLoadsEnd | builder/build.go:1541-1601 | on an acyclic import graph, however any number of loads are interleaved through cache and singleflight: every run ends, no load waits forever, and each returns what the uncached recursion returns |
| GoInputs.DedupeKeepsOnce | builder/build.go:1530-1536 | deduplication keeps every file, once |
| JobTable.TrackIs | host/state.go:257-290 | tracking pushes a job to the front, and of a full list the last one goes from the live jobs and the bucket to the archive |
| JobTable.SafeKept | host/state.go:257-412 | with fresh IDs every mutator keeps every job live or archived, and only down jobs listed or archived |
| JobTable.LookupAfter | host/state.go:391-412 | seen through GetJob, a mutator changes its own job and no other, pruning included |
| JobTable.ActiveStays | host/state.go:257-290 | an active job is never pruned |
| JobTable.JobKept | host/state.go:447-536 | with every mutator a job stays retrievable, its status only moves forward, and a terminal status does not change |
| JobTable.ExclusiveKept | host/state.go:355-389 | no two starting or running jobs ever share a volume |
| JobTable.ToldKept | host/state.go:474-536 | each job is created once, started at most once, and stopped or failed once, not both, exactly if it is down |
| JobTable.TrackedKeptIff | host/state.go:276-315 | the lists go on holding exactly the live down jobs if and only if no job that is down is touched again |
| JobTable.WrittenKeptIff | host/state.go:292-315 | the bucket goes on holding exactly the live jobs if and only if the persisted job does not push itself out of its full list |
| JobTable.ForceStopForgets | host/state.go:461-472 | force-stopping the least recent down job of a full list makes it vanish from the live jobs and saves null for it |
| JobTable.RecentKept | host/state.go:276-290 | each list is the most recent part of all that was ever pushed |
| JobTable.EveryRun | host/state.go:257-536 | on every run from a new state with fresh IDs, up to a restart, all of the above hold, and the list of each app is the first 25 of all that was pushed, most recent first; without touching down jobs the bucket equals the live jobs and each app keeps exactly the 25 jobs that went down last |
| JobTable.DownPushes | host/state.go:257-315 | a job that goes down stays live and is put first in the list of its app; of a list of 25 the last job goes to the archive, and no other job changes |
| JobTable.CoherentChange | host/state.go:447-536 | every mutator keeps a record coherent: done exactly with exit status 0, crashed exactly with another one, failed exactly with an error |
| JobLives.CallShows | host/state.go:317-536 | after a call, with the database open or closed, GetJob returns the record of the live job with the address, PID, mark, start time, end time, exit status or error that was given and every other field as before; of a new job a starting record |
| JobLives.RestoreRevives | host/state.go:91-111 | Restore revives every saved job, in any key order, prunes none, and lists under each app exactly its down jobs |
| JobLives.OpenKeeps | host/state.go:257-536 | every mutator on an open database, also one that was closed and missed something, keeps every job retrievable, all live, archived and saved records coherent, and what is saved restorable: saved down jobs stay within the bounded lists |
| JobLives.RestartKeeps | host/state.go:81-150 | a restart revives what is saved, however old it is, and keeps the same invariant |
| JobLives.StepKeeps | host/state.go:81-536 | so does every step: mutators, CloseDB, OpenDB and restarts, those that lose something included |
| JobLives.RestartKeepsJobIff | host/state.go:81-150 | GetJob answers for a job that has its name after a restart as before if and only if what is saved of it, if anything, is its live record |
| JobLives.ThroughIff | host/state.go:292-315 | the bucket equals the live jobs if and only if no null is saved and nothing was missed |
| JobLives.RestartKeepsIff | host/state.go:81-150 | GetJob answers for every job after a restart as before if and only if no null is saved and nothing was missed |
| JobLives.ForgottenStartsAgain | host/state.go:91-100 | force-stopping the least recent down job of a full list and restarting makes it a starting job without a name |
| JobLives.ReopenedMisses | host/update.go:88-130 | a status that changes between CloseDB and OpenDB leaves an open database without a null that is behind the live jobs, and a job that went down in no list |
| JobLives.ClosedChangeIsLost | host/state.go:474-536 | after a restart such a status is what it was before |
| JobLives.VolumeIsShared | host/state.go:355-389 | if the volume of a job that went down meanwhile is given to another job, two active jobs share it after a restart |
| JobLives.EveryLife | host/state.go:81-536 | on every run of mutators, CloseDB, OpenDB and restarts: every job is live or archived, or a null was restored in its place; status, exit status and error of every record agree; each job whose record was up to date at every restart has its name and its story told once over all lives, and no two such jobs share a volume while active |
| JobLives.FaithfulLife | host/state.go:81-536 | if that was so of all jobs, no active jobs share a volume and the log tells each story once |
| JobLives.StatusOnlyForward | host/state.go:81-536 | whatever becomes of other jobs, the status of a job whose record is up to date at every restart only moves forward, and a terminal one never changes |
| JobLives.CarefulLives | host/state.go:81-536 | if no down job is touched and nothing changes while the database is closed, every restart finds every record up to date, and bucket and lists stay exact |
| JobLives.RecentSinceRestart | host/state.go:257-290 | between restarts each app keeps exactly the 25 jobs that went down last, restored ones counting in the order in which they were restored |
| JobState.State.Acquire | host/state.go:230-238 | fails if the database is closed; otherwise it stays open while the user is there |
| JobState.State.Release | host/state.go:242-249 | one user less; who waits to close the database is woken exactly when it was the last one |
| JobState.State.OpenDB | host/state.go:167-198 | opens a closed database if it can be opened, and leaves an open one alone |
| JobState.State.CloseDB | host/state.go:202-216 | closes a database without users, and goes to sleep if it has some |
| JobState.State.CheckAgain | host/state.go:208-216 | a woken CloseDB sleeps again if there are users, and otherwise closes, unless another one did |
| JobState.State.NobodyWaitsForNothing | host/state.go:202-249 | no wake-up is lost: without users nobody sleeps in CloseDB |
| JobState.State.PruneDownJobs | host/state.go:257-274 | prunes in place what the table model prunes |
| JobState.State.TrackDownJob | host/state.go:276-290 | tracks in place as the table model does |
| JobState.State.Persist | host/state.go:292-315 | writes the job through, after tracking it if it is down; a job that is gone by then is saved as null |
| JobState.State.FindVolumesInUse | host/state.go:362-376 | finds exactly the volumes of the job that some starting or running job has |
| JobState.State.AddJob | host/state.go:355-389 | a known ID and volumes in use are refused without any change, with the volumes named; otherwise the job is added and persisted |
| JobState.State.GetJob | host/state.go:391-412 | the live job, else the archived one, else none |
| JobState.State.SetStatusRunning | host/state.go:474-490 | a starting job runs; it is persisted if the database is open |
| JobState.State.SetStatusDone | host/state.go:492-515 | a job that is not down becomes done with exit status 0 and crashed with another one (CallShows, CoherentChange); it is persisted if the database is open |
| JobState.State.SetStatusFailed | host/state.go:517-536 | a job that is not down fails; it is persisted if the database is open |
| JobState.State.SetForceStop | host/state.go:461-472 | marks a known job and persists it; an unknown one is passed over |
| JobState.State.SetContainerIP | host/state.go:447-452 | sets the address and persists the job |
| JobState.State.SetContainerPID | host/state.go:454-459 | sets the PID and persists the job |
| JobState.State.Restore | host/state.go:90-111 | the job loop of Restore, over the keys in any order; nothing is written |
| SyncWaiter.DecidedOk | appliance/postgresql/process.go:315-339 | what reconfigure decides to do writes no writable configuration and starts at most one waiter |
| SyncWaiter.RoleTakenOk | appliance/postgresql/process.go:341-514 | so does what assumePrimary and assumeStandby do, unless the process is a singleton; that it is enough is PrimaryOpens and StandbyFollows |
| SyncWaiter.OpenerIsEntitled | appliance/postgresql/process.go:780-794 | a waiter about to write was started for its downstream with writes enabled, saw it caught up, and is the only one left |
| SyncWaiter.StepKeeps | appliance/postgresql/process.go:187-795 | every step of a method or a waiter, failures and crashes included, keeps the invariant of at most one live waiter |
| SyncWaiter.OnlyTheWaiterOpens | appliance/postgresql/process.go:286-795 | on every interleaving of a non-singleton, postgresql.conf is written without read-only only by the one live, uncancelled waiter, for the downstream it was started with, after it saw sent equal to flushed |
| SyncWaiter.CancelReturns | appliance/postgresql/process.go:684-795 | a method that cancels waits only for a waiter that can go on and that gets closer to its end with every step |
| WriteSafety.RolePlanned | appliance/postgresql/process.go:341-514 | what assumePrimary and assumeStandby do makes the configuration read-only before the database or a waiter is started |
| WriteSafety.DecideNewSafe | appliance/postgresql/process.go:326-330 | where only the downstream differs, the database is not open |
| WriteSafety.SignalSafe | appliance/postgresql/process.go:780-794 | the configuration that a waiter makes the daemon load is the one that it wrote for its own downstream |
| WriteSafety.StepSafe | appliance/postgresql/process.go:187-795 | every sensibly asked step keeps the running daemon open for the downstream of its own configuration only, failures and crashes included |
| WriteSafety.OpenOnlyAsConfigured | appliance/postgresql/process.go:187-795 | on every interleaving of a non-singleton that is asked to have no role only while it is neither open nor about to be: between operations a daemon that accepts writes is configured as primary, and its writes wait for the downstream it is configured for |
| WriteSafety.RoleIsNeeded | appliance/postgresql/process.go:296-299 | the condition is exact: whatever the process was sensibly asked before, a sensible configuration keeps this on every further run if and only if it is a role, or the database is neither open nor about to be opened by a waiter |
| WriteSafety.NoRoleStaysOpen | appliance/postgresql/process.go:296-299 | an open database that is asked to have no role is configured so and stays open |
| WriteSafety.NoRoleIsOpened | appliance/postgresql/process.go:296-299 | one that a live waiter has yet to open is opened by it after it was asked to have no role |
| WriteSafety.FormerDownstreamRemains | appliance/postgresql/process.go:320-330 | configured for another downstream after that, it is still open for the former one, so it is open as configured if and only if the two have one ID |
| SyncedDownstream.NoteTrue | appliance/postgresql/process.go:763-767 | a waiter reports the downstream that it saw caught up |
| SyncedDownstream.SyncedIsCaughtUp | appliance/postgresql/process.go:286-795 | on every interleaving the reported synced downstream is the one that the latest waiter was started for and saw caught up |
| RoleProgress.PrimaryOpens | appliance/postgresql/process.go:187-434 | after every run, asked to be the primary of a downstream, and started if it is stopped: a process that is stopped, or runs as sync or as another primary, can by steps of its own only come to be open for writes that wait for this downstream, which it reports as synced |
| RoleProgress.SyncIsPromoted | appliance/postgresql/process.go:347-360 | a running sync that is promoted starts a waiter that opens it for its downstream |
| RoleProgress.AsyncPanics | appliance/postgresql/process.go:363-365 | a running async that is asked to be a primary gets to where the process panics |
| RoleProgress.SingletonOpens | appliance/postgresql/process.go:341-434 | a singleton without a downstream is open when it was started |
| RoleProgress.StandbyFollows | appliance/postgresql/process.go:187-514 | after every run, asked to be a standby, and started if it is stopped: the process comes to run read-only with its downstream caught up; where the downstream alone is another, the database goes on as it is; where there is nothing to do, only the configuration is noted |
| RoleProgress.OnlyNoted | appliance/postgresql/process.go:296-312 | the same configuration again, or an async that becomes the sync of the same upstream, disturbs neither the database nor the waiter |
| RoleProgress.StopStops | appliance/postgresql/process.go:231-239 | Stop comes to its end, with the database stopped |
| RoleProgress.FailedStartStops | appliance/postgresql/process.go:568-637 | a start that fails after the daemon is up comes to its end with the database stopped |
| ReplicaSet.SomeFree | appliance/mongodb/process.go:242-254 | the pigeonhole: with fewer hosts than places some ID below the size is free |
| ReplicaSet.NewMember | appliance/mongodb/process.go:235-258 | a known host keeps its ID, a new one gets the first free ID or 0 if there is none; the ID is reserved |
| ReplicaSet.ClusterAddrs | appliance/mongodb/process.go:260-270 | the addresses: the primary, and unless a singleton the sync and the asyncs |
| ReplicaSet.KeepIds | appliance/mongodb/process.go:272-283 | the IDs of current members that stay |
| ReplicaSet.ReplSetConfigFromState | appliance/mongodb/process.go:272-299 | one member per peer in order, with the IDs that assignment over the growing map gives, priority 1 for the first, and the next version |
| ReplicaSet.AssignedWell | appliance/mongodb/process.go:235-258 | handing out IDs over the growing map keeps given ones, keeps all distinct, and gives new ones below the size |
| ReplicaSet.MembersAre | appliance/mongodb/process.go:284-299 | the members are exactly the primary, the sync unless it is a singleton, and the asyncs, in this order, and only the primary has priority 1 |
| ReplicaSet.ConfigIsSound | appliance/mongodb/process.go:228-299 | for distinct peers and no asyncs beside a singleton: distinct IDs, retained hosts keep theirs, new hosts get one below the number of members, and only the primary has priority 1 |
| ReplicaSet.DistinctIdsIff | appliance/mongodb/process.go:228-299 | in general IDs are distinct if and only if it is no singleton, or has no asyncs, or one async and a retained primary with an ID other than 0 |
| WatchManager.ReplayIs | router/watcher.go:55-89 | replaying events shows a backend if and only if the last event about it said that it is up |
| WatchManager.ToldMirrors | router/watcher.go:55-89 | a watcher that is told of a change keeps mirroring the backends, or knowing a part of them |
| WatchManager.WatchManager.Watch | router/watcher.go:27-41 | a watcher that joins with the current state mirrors the backends; any other knows a part |
| WatchManager.WatchManager.Unwatch | router/watcher.go:43-53 | a watcher leaves, the others are not affected |
| WatchManager.WatchManager.TellDown | router/watcher.go:73-81 | when a service goes, every watcher is told of exactly its backends that they are down, and can replay to the backends without it |
| WatchManager.WatchManager.Send | router/watcher.go:55-89 | backends change as the event says, a removed route takes its service along, every watcher gets the event last, after the backends of a removed route and nothing else, and every watcher that joined with the current state can still replay its events to exactly the backends that are up |
| EventStream.SendPast | controller/events.go:180-185 | the list is sent oldest first, and the last sent ID is remembered |
| EventStream.SendNew | controller/events.go:188-201 | of what is delivered exactly what has a greater ID is passed on |
| EventStream.StreamEvents | controller/events.go:168-201 | what is streamed: the list oldest first, if past events are asked for, then what was delivered after it |
| EventStream.StreamContinuesList | controller/events.go:173-200 | if something was listed, the stream is every matching event after the client's last one, once and in order, but for the oldest that a limit leaves out |
| EventStream.StreamIsExactIff | controller/events.go:173-200 | without a limit the stream is exact if and only if something was listed or nothing up to the client's last event was delivered |
| EventStream.StreamIsExact | controller/events.go:168-201 | for a client whose last event precedes the subscription, on every interleaving of commits with subscribe and list: every matching event after it, exactly once, in increasing order |
| EventStream.StreamBeforeLastId | controller/events.go:173-197 | a client that resumes beyond the subscription is sent an earlier event when the list is empty |
| Heartbeat.LosersClose | host/discoverd.go:44-106 | on every interleaving of attempts and Close, open registrations are those of attempts between register and commit and the current one; at rest at most one |
| Heartbeat.CloseIsFinalIff | host/discoverd.go:44-106 | after Close the host stays unregistered until the next call if and only if no attempt was under way |
| Heartbeat.ConnectedUntilClosed | host/discoverd.go:66-106 | without a Close, the host is registered once some attempt returned without error |
| Heartbeat.ConnectPeer | host/discoverd.go:131-172 | returns nil if and only if it is connected already or some attempt succeeded, the error of the last attempt otherwise, and takes no result after the first success |
| Drain.Service.TrackRequestStart | router/http.go:559-566 | one more request in flight is counted |
| Drain.Service.TrackRequestDone | router/http.go:568-578 | one less, also without a start; everybody who sleeps is woken exactly when the count of the backend comes to zero |
| Drain.Service.Check | router/http.go:615-620 | a drainer sleeps if and only if requests to its backend are in flight |
| Drain.Service.SendDrained | router/http.go:620-625 | a drained event is sent only by a drainer whose own check found nothing in flight |
| Drain.Service.NobodySleepsForNothing | router/http.go:568-620 | no wake-up is lost: nobody sleeps for a backend without requests in flight |
| Drain.Service.DrainedAfterCheck | router/http.go:609-625 | every drained event follows such a check |

## Left out

- The command-line client, git and tar receivers, updater, status and taffy: plumbing over clients.
- The rest of the controller: handlers over repositories, authentication and authorisation.
- Listeners, TLS, ACME, certificates beyond whether a key pair parses, the reverse proxy, and TCP routes.
- Closing an HTTP listener while Set or Remove runs; each of its methods runs under the listener's mutex.
- Sockets, JSON, bolt and SQL: a bucket is a map, a channel of events is the list of what was sent to it.
- strings.ToLower beyond ASCII, and dot segments in path.Join.
- The type of a route in the store: a history is one of the routes of one type, so an ID does not change its type.
- Syncer.Sync: that table and tries agree is stated for a store whose routes keep their domain, port and path, no two
  in one place, and whose sub-path routes have a root route throughout. The schema (controller/data/schema.go:618-692
  and 773-776) comes close: it keeps domain, port and path unique as they are spelled, and checks for a root route when
  a route is inserted or updated, where a root route that becomes a sub-path passes because its old row counts. What
  goes wrong otherwise is shown by MovedRouteStaysFiled and SpellingsCollide. That Watch or List fails, before anything
  is set, is not modelled.
- BuildScheduler.BuildImages: what BuildImage returns for an image is a parameter; layers, hashing, progress and
  logging are not modelled, nor that the builder of a layer is written back to it.
- GoInputs.Loader.Load: one goroutine; LoadRaces has concurrent loads, as steps over a value.
- JobLives.EveryLife: a mutator and its transaction are one step, and nobody else writes the database while it is
  closed; calls that fail for want of the name of a restored null are no steps.
- JobState.State.Persist: the backend's own state blobs and the panic on a database error are not modelled.
- JobState.State.Restore: the resurrection of persistent jobs and the backend's restore are not modelled.
- JobState.State.AddJob: dereferencing the missing name of a restored null is a precondition, here and in the methods
  that set a status or copy the job, not an outcome.
- JobState.State.SetStatusFailed: attachers, listeners, webhooks and cleanup events are not modelled; an event is an
  entry of the log.
- SyncWaiter.StepKeeps: the methods of Process and its goroutines are steps over a value; fields are not updated in
  place.
- WriteSafety.OpenOnlyAsConfigured: a signal that is delivered takes effect at once; the daemon's reload is not a step
  of its own.
- RoleProgress.PrimaryOpens: says that the process can get there by its own steps, not by when: a downstream may stay
  behind, and a command may fail.
- WriteSafety.RoleIsNeeded: is about a process that was sensibly asked before; after a request for no role that was
  not, also a role may not help, as FormerDownstreamRemains shows.
- SyncWaiter.OnlyTheWaiterOpens: time-outs, commands, signals and queries are nondeterministic; positions are compared
  for equality only.
- ReplicaSet.ReplSetConfigFromState: reading and sending the configuration is not modelled, nor is the position in the
  oplog.
- EventStream.StreamEvents: the subscription delivers every committed event in order; a full buffer closes it and is
  not modelled.
- Heartbeat.LosersClose: attempts and Close are steps over a value; metadata, tags and the retargeting of the client
  are not modelled.
- Drain.Service.TrackRequestDone: covers services that track their backends; others do not count.
- MariaDB and Redis, whose control flow is like that of PostgreSQL or simpler; discoverd and flannel themselves.
