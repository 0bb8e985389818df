# MicroCloud, modelled and proved in Dafny

MicroCloud forms, grows and shrinks clusters of four services (MicroCloud, LXD, MicroCeph, MicroOVN) and decides which
disks and storage pools each system gets. This project models that logic and proves what it keeps. `dafny verify
dfyconfig.toml` checks everything.

How the model reads:

- Clusters, disks and pools are values; a call to a remote service is an atomic step that may fail; a call that changes a
  cluster may also fail after it took effect. Answers nobody controls are arbitrary values (`*`), and the order of a map
  iteration is an arbitrary pick (`:|`).
- Code that runs on several threads at once is a state machine over its atomic steps, and a property holds over every run
  of it: `JoinRequest`, `Removal`, `SessionRuns`, `Rendezvous`, `Tunnel`. Sequential code that changes state is a class or a
  method with loops, proved against functions on values about which the properties are then proved.
- Where the code does not do what one would expect of it, a lemma exhibits it, and the exact condition is proved where
  there is one.

| file | about |
|---|---|
| Services.dfy, Runs.dfy, Strings.dfy | the four services, options, sizes of finite sets; runs of any state machine; the order of strings |
| JoinRequest.dfy | a system joining services for itself, goroutine by goroutine (`servicesPut`, `RunConcurrent`) |
| Formation.dfy | `setupCluster`, `addPeers`, `waitForJoin` |
| DiskFilters.dfy, Tallies.dfy | disk filters, first match, match counters |
| PreseedStorage.dfy, PreseedParse.dfy | the storage part of `Preseed.Parse`: one system, all systems |
| InteractiveDisks.dfy | `askLocalPool` and `askRemotePool` |
| Replication.dfy | replication factors of OSD pools under growth and removal |
| Removal.dfy | `removeClusterMember`, any number of requests at once |
| Session.dfy, SessionRuns.dfy | trust establishment sessions: objects, and everything that can happen to them at once |
| Rendezvous.dfy | confirmation of joiners by the initiator |
| Tunnel.dfy | the lock protocol of the reverse tunnel |
| SelectableTable.dfy | filter, cursor, viewport and selection of the table |
| FilterQuery.dfy | one OR query from many filters |
| ClustersConflict.dfy | comparison of the clusters that systems report |
| Version.dfy | `cleanVersion`, `compareVersion` |

What the proofs brought to light:

- `servicesPut` (api/services.go:61) stores the result of every `Join` in one variable of the enclosing function. When
  MicroCeph and MicroOVN join at the same time, the success of one can overwrite the error of the other before it is
  tested. `HiddenJoinIff` and `DisksLeftOutIff` say exactly when a successful report can hide a failed join, or disks that
  were never requested. `waitForJoin` still notices a missing member, so membership, counters and exactly-once joins hold
  in all cases. It does not notice the disks (`LeftOutUnnoticed`): the conservation of Ceph disks needs the condition
  `Plan.Safe`, which is exact (`SafeIff`).
- The monitor guard of `removeClusterMember` can be passed by requests that run at once; `StrandsIff` says for which
  clusters, `OneAtATime` that requests one after the other cannot.
- A removal that fails after it lowered replication factors can leave a pool below its bound; `FailedRemovalCanLowerIff`
  says for which clusters, `RetryMakesUp` and `AnyHistory` that a retry or a growth repairs it.
- A request to stop a joiner's session can swallow the initiator's confirmation while its sender is told that all went
  well; `SwallowedIff` says that nothing else can. A stop that comes between the registration of a fingerprint and the
  sending of the intent closes the channel, and the request crashes; `CrashesBeforeSending` says that it never does so on
  a request that has come to send.
- A tunnel routine that cannot reach LXD leaves a closed connection stored, and openers do not replace it
  (`OpenersLeaveStale`); `StaleIff` says that nothing else does.
- A version with a component such as `00` is rejected whatever its numbers are (`RejectedIff`).
- A cluster member without an address can hide a conflict between clusters, and only such a member can
  (`DistinguishedIff`).

Assumptions, stated in the contracts: during a run only the run changes clusters; records of existing clusters are not
empty, agree with the clusters and have addresses; an existing MicroCloud cluster contains the local node; `validate` has
refused duplicate system names; the key of a system in the source's state map is its cluster name; while removal requests
run, members are only removed and services do not become initialized, and for `StrandsIff` and `OneAtATime` the monitors
stay as they are; Ceph pool names and table IDs are unique.

## Model

| member | source | states |
|---|---|---|
| JoinRequest.OutcomeOfRun | api/services.go:56-70 | Over every interleaving and failure of a system's join request, cut off anywhere, where a failing Join may have taken effect: joins happen only for tokens, disks are requested only by a member of MicroCeph, and a successful report means MicroCloud and LXD were joined and, of MicroCeph and MicroOVN, at least one without error |
| JoinRequest.NextKeepsInv | service/service_handler.go:87-135 | Every atomic step of the two goroutines and of the phases around them keeps the invariant: an error in the shared variable is lost only after a sibling stored success |
| JoinRequest.HiddenJoinIff | api/services.go:56-67 | A successful report can hide a failed join if and only if the request carries tokens for both MicroCeph and MicroOVN |
| JoinRequest.DisksLeftOutIff | service/microceph.go:287-301 | A successful report of a system that joined MicroCeph can leave configured disks unrequested if and only if it also joins MicroOVN and has a disk |
| JoinRequest.SomeRun | api/services.go:38-70 | What a caller may rely on when it stops waiting for a join request, at any point of any run |
| JoinRequest.LeftOutUnnoticed | cmd/microcloud/main_init.go:383-420 | Behind a successful report that left disks out every service was joined, so that waiting for the clusters to grow does not reveal it |
| Formation.Setup.SetupCluster | cmd/microcloud/main_init.go:681-841 | Each Join is called at most once and only by a system that was missing; on success every system is in every service by exactly the joins it owed, each counter is the true member count, no remote join was polled while the local node was outside the service, and every safe system's AddDisk requests are exactly its configured disks, in order |
| Formation.SafeIff | api/services.go:56-70 | The condition for the conservation of a system's disks is exact: it fails if and only if some run of the system's join request leaves disks out and reports success |
| Formation.FormNewCluster | cmd/microcloud/main_init.go:681-841 | Out of systems that are in no cluster yet: on success every service has exactly these systems as members |
| Formation.Setup.constructor | cmd/microcloud/main_init.go:681-720 | A run can start from any clusters, with nothing joined or requested |
| Formation.Setup.AddPeers | cmd/microcloud/main_init.go:422-566 | From the initialized clusters every missing system joins every service exactly once, with true counters at the end, and no remote join is polled while the local node is outside the service |
| Formation.Setup.WaitForJoin | cmd/microcloud/main_init.go:383-420 | When it succeeds, the joiner is a member of every service it had a token for and all counters are true member counts, whatever stale views the polls returned |
| Formation.Setup.PollOnce | cmd/microcloud/main_init.go:402-415 | A view one larger than the counter can only be the full cluster with the joiner in it |
| Formation.Setup.IssueTokens | cmd/microcloud/main_init.go:482-532 | For any order of the goroutines a system gets exactly one token for each service but MicroCloud that it is not in |
| Formation.Setup.JoinCloud | cmd/microcloud/main_init.go:461-480 | Exactly the systems outside MicroCloud join it, each once, and nothing else is joined yet |
| Formation.Setup.JoinRest | cmd/microcloud/main_init.go:536-559 | Every system joins exactly the services it still misses; no remote join is polled while the local node is outside the service |
| Formation.Setup.CollectRecords | cmd/microcloud/main_init.go:426-459 | Whichever system's record is picked, the counters start at the true member counts |
| Formation.Setup.PickRecords | cmd/microcloud/main_init.go:426-438 | For any iteration order, a service gets a record exactly if some system reports one, and it is the record of the system remembered for it |
| Formation.Setup.InitServices | cmd/microcloud/main_init.go:723-794 | A service is bootstrapped on the local node exactly if no system reports a cluster for it, and the records then agree with the clusters; no Join is called |
| Formation.Setup.BootstrapOne | cmd/microcloud/main_init.go:736-791 | Bootstraps one service unless a cluster exists, and records it; a failure, which may have taken effect, changes no record and calls no Join |
| Formation.Setup.AddExistingDisks | cmd/microcloud/main_init.go:803-841 | Systems that were MicroCeph members before the run get all their disks here and all others nothing, so that together with the joiners' own requests every system's disks are requested once |
| Formation.Setup.AddMemberDisks | cmd/microcloud/main_init.go:810-840 | Every recorded member inside the run gets its disks requested, in order, and nobody else |
| Formation.StepForward | cmd/microcloud/main_init.go:422-566 | A join request seen through takes the run exactly one step further for every service's members, join calls and requested disks |
| Formation.CutOff | cmd/microcloud/main_init.go:383-420 | A join request given up anywhere still called every Join at most once |
| Formation.FormedAtLast | cmd/microcloud/main_init.go:809-841 | The disks requested by joiners and those added for earlier members together are the configured ones |
| Formation.BootstrapAgrees | cmd/microcloud/main_init.go:777-786 | Recording a bootstrapped service keeps all records in agreement with the clusters |
| DiskFilters.FirstMatch | cmd/microcloud/preseed.go:997-1077 | With distinct disk IDs, eliminating matched disks filter by filter gives each filter, in order, exactly the disks it is the first to match |
| DiskFilters.PostsAreFirstMatches | cmd/microcloud/preseed.go:1009-1074 | With distinct IDs what the filters hand over is, filter by filter, the path of each disk that the filter is the first to match, with the wipe and encrypt flags of that filter |
| DiskFilters.ChosenExactlyOnce | cmd/microcloud/preseed.go:1009-1074 | With distinct IDs each available disk is chosen once if some filter matches it, by the first such filter, and never otherwise |
| DiskFilters.UnpartitionedOnce | cmd/microcloud/preseed.go:999-1077 | The same over all disks of a system: partitioned disks are never chosen |
| DiskFilters.ChosenIff | cmd/microcloud/preseed.go:1054-1073 | Whatever the IDs: the first filter that matches a disk chooses it if and only if no disk with the same ID is matched by an earlier filter |
| DiskFilters.SharedIdHidesADisk | cmd/microcloud/preseed.go:1059-1070 | Two disks that share an ID: the one matched first hides the other |
| DiskFilters.FindsCountFirstMatches | cmd/microcloud/preseed.go:1051 | The counter of an expression is the number of disks whose first match is a filter with that expression |
| DiskFilters.Match | cmd/microcloud/preseed.go:603-640 | Succeeds exactly if the expression is not empty, parses and evaluates on every disk, and then returns the matching disks in order |
| DiskFilters.RemoveMatched | cmd/microcloud/preseed.go:1054-1073 | Keeps, in order, exactly the disks that share no ID with a matched one |
| Tallies.TallyTotal | cmd/microcloud/preseed.go:1051 | The counters add up to the number of increments |
| Tallies.TallyCounts | cmd/microcloud/preseed.go:1051 | Each counter is the number of its increments |
| PreseedStorage.ApplyCephFilters | cmd/microcloud/preseed.go:999-1077 | One system's loop: the chosen disks with path and flags of their filter, at most one pending and one final pool, and one count per chosen disk |
| PreseedStorage.ApplyLocalFilters | cmd/microcloud/preseed.go:1081-1118 | One system's loop over the local filters: one disk per matching filter, until every system has one |
| PreseedStorage.CheckBounds | cmd/microcloud/preseed.go:1244-1262 | Accepts exactly if every filter's matches are within find_min and find_max |
| PreseedParse.InitConfig.Parse | cmd/microcloud/preseed.go:911-1344 | On success the bounds of every Ceph filter hold for the disks chosen by its expression and those of every local filter for the systems it matched on, every system has exactly the disks and pools of all phases, and for a new cluster local storage is all or nothing and the remote pool is everywhere or nowhere |
| PreseedParse.InitConfig.ChooseDisks | cmd/microcloud/preseed.go:911-1267 | Direct disks, filters and checks: the state before the distributed pools, all bounds, and whether any Ceph disk was chosen |
| PreseedParse.CountedLocal | cmd/microcloud/preseed.go:1265-1267 | Systems with a direct local disk and systems that found one are disjoint, so passing the count check means none or all |
| PreseedParse.LocalPools | cmd/microcloud/preseed.go:911-933 | Either no system has a local pool, or every system has a pending one and exactly the bootstrap system a final one |
| PreseedParse.DistributedPools | cmd/microcloud/preseed.go:1269-1309 | If any system supplies Ceph disks, every system has exactly one pending remote pool and the bootstrap system exactly one final one; otherwise there is none |
| PreseedParse.PoolsOf | cmd/microcloud/preseed.go:911-1344 | The number of pools of each kind that one system ends up with, through all phases |
| PreseedParse.DisksOf | cmd/microcloud/preseed.go:937-946 | A system's Ceph disks are its direct disks followed by the filtered ones |
| PreseedParse.ParsedDisks | cmd/microcloud/preseed.go:937-1074 | With distinct IDs a successful parse gives each system its direct disks followed by its first matches, with path and flags of the filter that is first to match each |
| PreseedParse.CountersAddUp | cmd/microcloud/preseed.go:997-1051 | The match counters of the Ceph filters add up to the number of disks the filters chose, for every iteration order |
| PreseedParse.CountsAreDisks | cmd/microcloud/preseed.go:1244-1253 | With distinct IDs, what find_min and find_max are compared with is the number of disks, over all systems, whose first match is a filter with that expression |
| PreseedParse.InitConfig.CheckFilters | cmd/microcloud/preseed.go:956-966 | A system is left to the filters exactly if its entry names no disk |
| PreseedParse.InitConfig.SetUpDirectDisks | cmd/microcloud/preseed.go:911-954 | Every system gets exactly its direct disks and the pools that belong to a direct local disk |
| PreseedParse.InitConfig.SetUpCephFilters | cmd/microcloud/preseed.go:997-1077 | Every filtered system gets exactly the disks its filters choose, and the counters are those of all chosen disks |
| PreseedParse.InitConfig.SetUpLocalFilters | cmd/microcloud/preseed.go:1079-1118 | Every filtered system gets its local disks, the systems that found one are exactly those remembered, and the counters count, per expression, the filters that were applied to a system and matched |
| PreseedParse.InitConfig.CompleteRemote | cmd/microcloud/preseed.go:1271-1309 | Every system is brought up to one pending, and the bootstrap system to one final, remote pool |
| PreseedParse.InitConfig.CompleteRemoteFS | cmd/microcloud/preseed.go:1313-1341 | Every system gets the remote-fs pool, or the key to join it |
| InteractiveDisks.InitConfig.AskLocalPool | cmd/microcloud/ask.go:316-542 | A completed run gives every asked system exactly one of the disks it offered and withdraws that disk; any other run changes nothing |
| InteractiveDisks.InitConfig.AskRemotePool | cmd/microcloud/ask.go:637-1059 | Every system gets, in order and with its flags, the disks selected on it, all of them offered by an asked system |
| InteractiveDisks.InitConfig.AskDisks | cmd/microcloud/ask.go:302-314 | No path assigned to a system's local pool is later selected for, or added to, its MicroCeph disks |
| InteractiveDisks.SelectLocal | cmd/microcloud/ask.go:392-446 | An accepted selection names exactly one offered disk for each asked system |
| InteractiveDisks.RetryLocal | cmd/microcloud/ask.go:157-184 | However often the user tries again, the result is a complete selection or none |
| InteractiveDisks.RetryRemote | cmd/microcloud/ask.go:157-184 | However often the user tries again, and also when a retry is declined, only rows of the table are selected |
| InteractiveDisks.Offer | cmd/microcloud/ask.go:362-380 | The table shows exactly the unused disks of the asked systems |
| InteractiveDisks.OnlyThatPath | cmd/microcloud/ask.go:492-500 | Taking a disk withdraws its path and no other |
| Replication.GrowthSize | cmd/microcloud/main_init.go:848-882 | Growth raises each default pool to three replicas or to the number of disks, and lowers no pool |
| Replication.RemovalSize | api/services_cluster.go:117-149 | Before a removal every pool is lowered to the number of disks that stay, and none is raised |
| Replication.BoundsOverHistories | cmd/microcloud/main_init.go:843-883 | Over every history of successful growths and removals a default pool's size is at least min(3, disks) and at most the number of disks |
| Replication.AnyHistory | api/services_cluster.go:114-152 | Over every history, failures included, the upper bound holds, and after the next successful growth the lower one does |
| Replication.UpperSurvives | api/services_cluster.go:114-152 | No growth or removal, not even a failing one, lifts a pool beyond the disks |
| Replication.GrowthRestoresLower | cmd/microcloud/main_init.go:848-882 | A successful growth restores the lower bound whatever happened before |
| Replication.RemovalRestoresUpper | api/services_cluster.go:117-149 | A successful removal restores the upper bound whatever happened before |
| Replication.RemovalKeepsLower | api/services_cluster.go:117-149 | A successful removal keeps the lower bound |
| Replication.FailedRemovalKeepsLowerIff | api/services_cluster.go:146-152 | After a removal that failed behind the resize the lower bound holds if and only if three disks stay elsewhere, or the pool did not have to shrink, or its resize did not get through |
| Replication.FailedRemovalCanLowerIff | api/services_cluster.go:146-152 | A removal can fail and leave a pool below its lower bound if and only if fewer than three disks, and fewer than the pool's size, stay elsewhere |
| Replication.RetryMakesUp | api/services_cluster.go:114-152 | A failed removal followed by a successful one has the same disks and pools as the successful one alone |
| Replication.CephService.UpdateReplicas | cmd/microcloud/main_init.go:843-884 | The replica step computes exactly the growth of the model, with the empty name when no pool needs it |
| Replication.CephService.RemoveMember | api/services_cluster.go:114-152 | The removal step is exactly the removal of the model: the member leaves only after the resize, and a deletion that fails may have taken effect |
| Removal.CloudLast | api/services_cluster.go:87-153 | In every interleaving of any number of requests, with failures anywhere: a node leaves MicroCloud only when it is in no other initialized service of the request that removes it |
| Removal.LxdFirst | api/services_cluster.go:87-92 | MicroCeph is resized, and MicroCeph or MicroOVN lose a node, only when the node is out of an initialized LXD |
| Removal.ResultTells | api/services_cluster.go:154-162 | A refused request and one that found no member changed nothing; after success the node is in no initialized service; the effects of a request are in the prescribed order |
| Removal.NextKeepsInv | service/service_handler.go:87-135 | Every step of every request keeps the invariant of all requests |
| Removal.GuardHolds | api/services_cluster.go:61-85 | A request that passed the guard never deletes a monitor of a two-member MicroCeph cluster as long as members and monitors are those it has read |
| Removal.StrandsIff | api/services_cluster.go:61-85 | From any clusters, with monitors that do not change: requests that run at once can delete a monitor from a two-member MicroCeph cluster if and only if it has three members or more to begin with, one of them a monitor |
| Removal.OneAtATime | api/services_cluster.go:61-85 | Requests of which each comes only after the last one ended never do |
| Sessions.AfterCheck | api/services_auth.go:54-82 | What an HMAC check does: the counter stays within 50, and the session is told to stop exactly when a failed check finds the counter at 50 |
| Sessions.Session.RegisterIntent | service/session.go:131-141 | A fingerprint is accepted exactly if it is not registered yet, and then appended |
| Sessions.Session.RegisterFailedAttempt | service/session.go:144-154 | Counts up to fifty and then refuses; the 8-bit counter cannot wrap around |
| Sessions.Session.Stop | service/session.go:167-206 | A stop that goes through empties the session and closes its channels, or drains one pending intent; one that fails changes nothing |
| Sessions.Session.Allow | service/session.go:108-113 | Adds the certificate and changes nothing else |
| Sessions.Handler.Authenticate | api/services_auth.go:52-91 | Without an active session the request is refused and nothing changes; with one the session goes through exactly one check |
| Sessions.Handler.RegisterJoin | api/session_join.go:49-67 | A join request registers its fingerprint exactly if the session is active, on an initiator the services match, the certificate has a fingerprint, and it is new |
| Sessions.ValidateIntent | api/session_join.go:93-112 | Accepts exactly the intents that name every local service in its local version, for every iteration order |
| Sessions.Handler.StartSession | service/service_handler.go:138-149 | A started session is fresh and active, also when the passphrase has to be generated |
| Sessions.Handler.StopSession | service/service_handler.go:153-165 | Stops the session if there is one, and is no error without one |
| Sessions.Handler.ActiveSession | service/service_handler.go:168-176 | A session is active exactly while it has a passphrase |
| Sessions.Handler.TemporaryTrustStore | service/service_handler.go:199-209 | Shows certificates only of an active session |
| SessionRuns.NoIntentTwice | api/session_join.go:49-84 | In every interleaving of join and stop requests, sessions and consumer: between start and stop no two delivered intents share a fingerprint |
| SessionRuns.ExactVersions | api/session_join.go:93-112 | Every intent delivered on an initiating session names each local service in exactly the local version |
| SessionRuns.AcceptedIsTaken | api/session_join.go:78-83 | Conservation, in every run and for every session and intent: as many intents were received by the session's consumer, before or after it stopped, or swallowed by a stop, as there are join requests accepted in that session that carry it |
| SessionRuns.AcceptedWasTaken | api/session_join.go:78-83 | The intent of an accepted join request is among those taken from the session it waited in |
| SessionRuns.CrashesBeforeSending | service/session.go:192-197 | In every run a request that sends on a closed channel is one that had registered but not come to send when its session stopped; no stop closes the channel on a waiting request |
| SessionRuns.DrainedOnlyByStop | service/session.go:193-197 | Only a stop request swallows intents, one waiting intent at a time |
| SessionRuns.NothingDrained | service/session.go:193-197 | Nothing is swallowed as long as nobody has asked to stop a session |
| SessionRuns.FailureLimit | api/services_auth.go:60-75 | The first fifty failed checks of a session are counted, the fifty-first and every later one calls Stop, and the counter stays within 0..50 |
| SessionRuns.StoppedForGood | service/service_handler.go:182-196 | Once a session has stopped it stays stopped, and no transaction begins in it, over every run |
| SessionRuns.NoTrustAfterStop | service/service_handler.go:199-209 | After a stop the handler shows no certificate, not even one allowed later, until another session starts |
| SessionRuns.NextKeepsInv | service/service_handler.go:182-196 | Every step keeps the invariant of all sessions and requests |
| Rendezvous.EveryoneConfirmed | api/session.go:186-250 | With every joiner a handler in which anything can happen meanwhile: when the initiator writes Accepted, the very session that accepted each confirmation has handed the initiator's intent to its consumer, or somebody asked that joiner to stop a session |
| Rendezvous.EveryoneTrustedIff | api/session.go:188-197 | Unless the initiator's own session was stopped, its trust store then names exactly the confirmed joiners, and holds every confirmed certificate if and only if intents of one name carry one certificate |
| Rendezvous.SwallowedIff | service/session.go:193-197 | For any confirmed joiners and any set of addresses at which stop requests may come: a joiner can be left without the initiator's intent behind an Accepted if and only if its address is in the set |
| Tunnel.OneTunnel | cmd/microcloudd/cluster_manager_tunnel.go:148-177 | In every interleaving of openers and closers at most one connection is live, and whenever the lock is free it is the stored one |
| Tunnel.StoredIsLive | cmd/microcloudd/cluster_manager_tunnel.go:148-188 | In every run in which LXD can be reached, whenever the lock is free a stored connection is the one live connection |
| Tunnel.StaleIff | cmd/microcloudd/cluster_manager_tunnel.go:172-188 | A closed connection can stay stored if and only if LXD can fail |
| Tunnel.NextKeepsInv | cmd/microcloudd/cluster_manager_tunnel.go:298-321 | Every instruction of every routine keeps each live connection stored, or in the hands of the lock holder about to store it |
| Tunnel.LxdFailureLeavesStale | cmd/microcloudd/cluster_manager_tunnel.go:172-188 | Wherever no tunnel is stored and the lock is free, an opener that dials and then cannot reach LXD leaves a closed connection stored |
| Tunnel.OpenersLeaveStale | cmd/microcloudd/cluster_manager_tunnel.go:156-159 | A stale connection stays stored whatever openers do |
| SelectableTables.AnyRun | cmd/tui/selectable_table.go:192-214 | After any events the filter map enumerates, in increasing order, exactly the matching rows; the cursor is within the rows and the viewport; selected rows exist and are not disabled |
| SelectableTables.FilterEnumerates | cmd/tui/selectable_table.go:310-341 | The filter loop's map enumerates exactly the matching rows in increasing order |
| SelectableTables.InsertKeepsRows | cmd/tui/selectable_table.go:379-387 | An insert changes neither the row under the cursor nor any selected or disabled row |
| SelectableTables.DisabledInRange | cmd/tui/selectable_table.go:389-398 | If only existing rows are disabled, every disabled row exists |
| SelectableTables.OnlyShownRowsGetSelected | cmd/tui/selectable_table.go:442-457 | Only select-all and toggle select, and only displayed rows that are not disabled |
| SelectableTables.SelectableTable.Init | cmd/tui/selectable_table.go:217-241 | The table starts with every row displayed and nothing selected or disabled |
| SelectableTables.SelectableTable.FilterRows | cmd/tui/selectable_table.go:310-341 | The displayed rows become the filtered ones, and the cursor goes back to the top only if asked |
| SelectableTables.SelectableTable.HandleKeyEvent | cmd/tui/selectable_table.go:410-488 | Every key has exactly the effect of the model's event |
| SelectableTables.SelectableTable.HandleInsertEvent | cmd/tui/selectable_table.go:379-387 | An inserted row has exactly the effect of the model's event |
| SelectableTables.SelectableTable.HandleDisableEvent | cmd/tui/selectable_table.go:389-398 | Disabling deselects a row by its index among all rows |
| SelectableTables.SelectableTable.SelectAll | cmd/tui/selectable_table.go:442-447 | Selects exactly the displayed rows that are not disabled, in addition to those already selected |
| SelectableTables.SelectableTable.Collect | cmd/tui/selectable_table.go:154-167 | The result holds each selected row exactly once |
| FilterQueries.AnswerIsUnion | database/cluster_manager.mapper.go:116-203 | The built query parses, its placeholders are as many as its arguments, and on every table its answer is the union of the single-filter answers, each row once, and ordered by ID because that is the column the built query orders by |
| FilterQueries.Aligned | database/cluster_manager.mapper.go:465-576 | Each filter's condition is tested with its own arguments, also when a filter contributes two |
| FilterQueries.ParsesBuilt | database/cluster_manager.mapper.go:146-158 | Splitting at ORDER BY, cutting at WHERE and joining with OR yields one parenthesised group per filter, in order |
| FilterQueries.SentSelects | database/cluster_manager.mapper.go:190-196 | Whatever is sent selects every row without filters and otherwise exactly the rows that meet some filter |
| FilterQueries.GetClusterManagers | database/cluster_manager.mapper.go:116-203 | Succeeds exactly if every filter has a statement, and sends the registered statement for at most one filter and the built query for more |
| FilterQueries.GetClusterManagerConfig | database/cluster_manager.mapper.go:465-576 | The same for the configuration table and its three kinds of filter |
| ClustersConflicts.ClustersConflict | service/system_information.go:365-396 | For every iteration order: a service is reported only if two of its clustered systems hold different member maps, and with addresses everywhere if any given service has such systems |
| ClustersConflicts.SameIsEqual | service/system_information.go:383-391 | A sub-map of equal size with addresses is equal |
| ClustersConflicts.DistinguishedIff | service/system_information.go:383-391 | The comparison tells a record from every other cluster if and only if all its members have addresses |
| Versions.RejectedIff | service/version.go:44-65 | A dotted decimal version is rejected if and only if a component is a run of two or more zeros, there are more than three components, or (major, minor) is numerically below the minimum |
| Versions.CleanTwice | service/version.go:25-42 | Cleaning is idempotent on every string |
| Versions.CleanPartIs | service/version.go:33-38 | Cleaning keeps a component's value, and yields a numeral without leading zeros unless the component is a run of zeros |
| Versions.CleanedParts | service/version.go:25-42 | Splitting the cleaned version gives the cleaned components back |
| Versions.ComputeCleanVersion | service/version.go:25-42 | The loop computes the component-wise cleaning |
| Versions.NumeralOrder | service/version.go:52 | Numerals compare as numbers (section 11 of Semantic Versioning 2.0.0) |
| Versions.LxdMinimum | service/version.go:15-16 | LXD is accepted exactly from 5.21 on |
| Versions.MicroCephMinimum | service/version.go:18-19 | MicroCeph is accepted exactly from 19.2 on |
| Versions.MicroOvnMinimum | service/version.go:21-22 | MicroOVN is accepted exactly from 24.3 on, although the minimum is written 24.03 |

## Left out

- Network, TLS, websockets, multicast, SQL execution and the clients of LXD, MicroCeph and MicroOVN: arbitrary answers instead.
- Certificates, fingerprints, the HMAC and its key derivation: opaque values and a Boolean.
- Revert hooks, profile updates, network configuration and validation: no bearing on the properties.
- Wall-clock time: a timeout is a failure that may come at any point.
- The per-disk reports of an AddDisk request: requests are counted, not their results.
- Progress of `ensureTunnelClosed`, which waits for a group its caller may belong to: only safety is proved.
- Closing of a session's channels when its stop fails or drains a sender: the code does not establish it.
- `RemoveMsg` of the table, its rendering, its error field, and the order in which results are sorted.
- Wipe flags of local disks chosen interactively, and at most one local pool under several local filters: the code does not establish these.
- Join configuration for LXD networks, and the fault-tolerance warnings: they only inform.
- Versions with a pre-release or build part, and the regular expression that finds MicroCeph's version: the extracted version is an input.
- The SQL text below the level of tokens, NULL values and the deletion and update statements.
- Formation.Setup.SetupCluster: conservation of Ceph disks is stated for systems that are `Safe`; for all others the requests are a prefix of the configured disks, because of the shared error variable.
- SelectableTables.SelectableTable.Collect: the order of the result is open, as it is in the source before sorting.
- Replication.BoundsOverHistories: a pool counts as a default pool by its name; pools made or deleted by others between growths are arbitrary, except that they leave the pool in question alone.
