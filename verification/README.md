# A verified model of the RabbitMQ charm's coordination and reconciliation

The charm's units share one lock service without a lock server: every unit writes timestamped requests on the
peer relation, whichever unit leads writes grants into leader settings, and a unit holds a lock while the
timestamp of its own request equals the timestamp of its grant. Locks are released at the end of the hook that
holds them. Around this protocol stand the functions it protects (restarts, package upgrades, cluster joins)
and the stores the charm keeps: peer storage with its migration to leader settings, passwords on disk and in
peer storage, the tracked configuration of the broker, a versioned key-value store, the hosts file and the
queue check.

## Layout

- `Order.dfy`, `Coordination.dfy`: the order of requests and what `acquire`, `grant`, `handle` and the release
  mean, as functions on tables of grants and requests.
- `Serial.dfy`, `Lifecycle.dfy`: the coordinator object and one hook's callbacks as classes, proved to compute
  those functions.
- `Protocol.dfy`: the distributed protocol as a state machine whose steps are built from the same functions,
  its invariant and mutual exclusion. `Refinement.dfy` ties one hook's steps in any interleaving to what the
  hook object computes and writes.
- `Fairness.dfy`, `Faults.dfy`, `Projection.dfy`, `AcquireContract.dfy`: bounded bypass, failures and departures,
  independence of locks, and the contract of `acquire` over a hook.
- `Paths.dfy`, `HalfPublished.dfy`, `Overlooked.dfy`: exactly which failure of a hook, and which load of a leader,
  the protocol does not survive.
- `Restarts.dfy`: the functions that run under the locks. `Timestamp.dfy`: the text form of request times.
- `Wrappers.dfy`, `Text.dfy`: optional values and white space.
- `PeerStorage.dfy`, `Passwords.dfy`, `Broker.dfy`, `KvStore.dfy`, `HostsFile.dfy`, `QueueStats.dfy`: one each for
  the other stores and computations.

## What the environment owes the protocol

A hook is never atomic: it loads leader settings, then each unit's requests one at a time, runs, writes leader
settings and then its own requests, and the steps of other units come in between. The obligations are the
guards of `Protocol.Enabled`:

- a leader's hook loads the current leader settings; any other unit may load settings of any age;
- a leader's hook is listed every unit that has a live grant; apart from that any hook may be listed any of the
  units that see the peer relation, and none if its own unit does not see it;
- a timestamp a unit puts on a request is not empty and the unit has not used it for that lock before;
- leadership moves neither from nor to a unit with a hook in flight, and such a unit does not depart;
- a hook may fail at any point, unless its unit is stranded: it is closing, it has never written to the peer
  relation, and leader settings hold a grant for the request that its own file still holds.

Two of these are exact. `Overlooked.LoadIsHarmfulExactlyWhenOverlooking` proves that in every state the invariant
holds of, a leader's load of current grants can lead to two holders of a lock if and only if a unit with a live
grant is not listed to it. And `HalfPublished.FailureIsHarmfulExactlyWhenStranded` proves that in every state the
invariant holds of, dropping a hook can lead to two holders of a lock if and only if its unit is stranded. Such a
state is reached when a unit that asked for a lock before it saw the peer relation is elected, and its hook fails
after leader settings are written and before its requests are (`HalfPublished.StrandedIsReachable`). The code does
not guard against it.

Fairness further assumes that a new request is later than every published request for the same lock, and that a
leader's hook is listed every unit that has published requests.

## What the code does that its documentation does not say

- `acquire` adds an empty entry named after the lock to `self.requests` (coordinator.py:319), as if the lock
  were a unit. It never reaches a queue or a written value (`AcquireContract.StrayRowsNeverShow`).
- A hook that fails writes nothing, but an action that raises is reported as failed and still runs the exit
  callbacks (actions.py:366-378), so it gives up the locks granted to it (`Lifecycle.Hook.ExecuteAction`).
- A client that names its policy `TTL`, or `HA` while queues are mirrored, on the virtual host `openstack` fights
  with the charm's own policy: the later one wins and every slow pass issues commands again. All other requests
  converge in one pass (`Broker.PassDelivers`, `Broker.SecondPassIsSilent`).
- The configuration tracker remembers the user, the virtual host, the TTL and mirroring. A request that differs in
  anything else is skipped: a change of `admin`, of the policy's name or pattern, or of the notification TTL
  (`Broker.UntrackedChangeIsMissed`, `Broker.RenamedPolicyExample`).
- `amqp_changed` is registered before it is decorated (rabbitmq_server_relations.py:477-479, hookenv.py:975-986), so
  the `amqp-relation-changed` hook never marks the tracker as stale. Only calls through `update_clients` (397-420)
  do, and these stop where a restart is pending, the unit is paused or no client has a password yet. Against the
  promise of `configure_amqp` (257-263), a unit that leads again may skip a request whatever has become of the
  broker. That is harmless where others have only configured clients (`Broker.FastPathIsSafe`), and otherwise
  exactly where what the tracker relies on is still there (`Broker.UnnoticedChangeIsHarmless`,
  `Broker.UnnoticedChangeExample`).
- A rotated password takes effect only if the peer relation exists and the user's file is gone from the disk
  (`Passwords.RotationTakesEffect`). While the file is there, its old password is served for good
  (`Passwords.RotationLostToFile`).
- A blank password file counts as no password, but migrating it erases the one in leader settings
  (`Passwords.MigrationKeepsExactly`).
- Passwords are stripped of surrounding white space when they are read from disk, so a given password with such
  white space is not what later calls answer unless peer storage took it (`Passwords.FirstAnswerStays`).
- `getrange` matches with SQL LIKE: `_` and `%` in a prefix are wildcards and letter case is ignored. A stored key
  that matches only that way can make `delta` report a key that was just updated (`KvStore.WildcardPrefixShadows`).
- `peer_retrieve_by_prefix` removes every occurrence of the prefix from a key. A key comes back unchanged exactly
  when the prefix does not recur in it (`PeerStorage.KeyComesBack`).
- `peer_store_and_set` stores under the prefix only where another unit has joined the peer relation with an address
  (peerstorage/__init__.py:256, hookenv.py:797-812), but retrieval only needs the relation to exist. A lone unit's
  settings go on the client relation and are not found again (`PeerStorage.GivenComesBackExactly`,
  `PeerStorage.LoneUnitExample`).
- A hook that does not reach `check_coordinated_functions` gives up a granted lock without running what it guards,
  unless it calls the guarded function itself, or the lock is the restart's and a decorated function comes to a
  change (`Restarts.GivenUpUnrun`).
- `update_hosts_file` raises IndexError on a line of two or more characters that are all white space, once the map
  has an entry to write (`HostsFile.UpdateHostsFile`). If the file's last line lacks its newline and is kept, it
  takes in the first new entry, and the next update deletes both (`HostsFile.ReadsAsUpdated`,
  `HostsFile.SecondUpdateIsIdentity`).
- A `SystemExit` inside `hook_scope` neither commits nor rolls back (unitdata.py:368-375), so a hook that exits with
  code 0 succeeds and loses its uncommitted writes (`KvStore.RaisingScopeRestores`).
- With the busiest queues asked for, a matched queue counts once more under its own name, so a limit without
  wildcards counts its queue twice (`QueueStats.BusiestAddsOwnNames`).

## Model

| member | source | states |
|---|---|---|
| `Order.Sorted` | charmhelpers/coordinator.py:413-413 | requests come out in strict (timestamp, unit) order, none lost or added, whatever order the set yields them in |
| `Order.LessExactly` | charmhelpers/coordinator.py:413-413 | texts are ordered where they first differ, and a beginning comes before what it begins |
| `Order.BeforeExactly` | charmhelpers/coordinator.py:413-413 | requests are ordered by time, and by unit where the times are the same |
| `Coordination.QueueHasHead` | charmhelpers/coordinator.py:405-415 | a lock that anybody requests has a least (timestamp, unit) request |
| `Coordination.HeadsUnique` | charmhelpers/coordinator.py:405-415 | at most one unit heads a lock's queue |
| `Coordination.HandleDecides` | charmhelpers/coordinator.py:358-426 | for every unit and lock, `handle` leaves a live holder its grant, else gives the lock to the least request, else to nobody |
| `Coordination.HandleSettles` | charmhelpers/coordinator.py:365-384 | after `handle` every grant carries the timestamp its unit now requests |
| `Coordination.HandleExclusive` | charmhelpers/coordinator.py:382-424 | `handle` keeps every lock with at most one unit |
| `Coordination.HandleServes` | charmhelpers/coordinator.py:358-426 | after `handle` a lock is granted if and only if somebody requests it |
| `Coordination.HandleIgnoresEmptyRows` | charmhelpers/coordinator.py:319-319 | entries without requests, like the one `acquire` adds, never change what `handle` decides |
| `Coordination.GrantDecides` | charmhelpers/coordinator.py:386-426 | `grant` changes one entry at most, and only for the head of the queue of a free lock |
| `Coordination.GrantExclusive` | charmhelpers/coordinator.py:386-426 | `grant` never makes a second holder |
| `Coordination.AcquireReports` | charmhelpers/coordinator.py:300-335 | where a leader's grants match its requests, `acquire` returns True if and only if `granted` holds afterwards |
| `Coordination.AcquireKeepsSettled` | charmhelpers/coordinator.py:319-332 | a leader's own `acquire` keeps every grant matched by a request |
| `Coordinator.Serial.constructor` | charmhelpers/coordinator.py:253-271 | a new coordinator has not loaded any state |
| `Coordinator.Serial.Initialize` | charmhelpers/coordinator.py:273-298 | loads grants from leader settings and requests from the relation or the local file, merging the latter for a unit that has published nothing; a second call changes nothing |
| `Coordinator.Serial.LoadPeerState` | charmhelpers/coordinator.py:522-530 | exactly the units that answered have requests, in any order of asking |
| `Coordinator.Serial.IsGranted` | charmhelpers/coordinator.py:337-343 | True if and only if the unit has a request for the lock that is no empty text and equals its grant |
| `Coordinator.Serial.AcquireLock` | charmhelpers/coordinator.py:300-335 | new state and answer, on leaders and others: an outstanding request is kept, a leader grants at once where it may |
| `Coordinator.Serial.GrantLock` | charmhelpers/coordinator.py:386-426 | a leader grants a free lock to its queue's head and to nobody else, and says whether the unit has it; others do nothing |
| `Coordinator.Serial.UnitsGranted` | charmhelpers/coordinator.py:397-401 | exactly the units with a grant for the lock |
| `Coordinator.Serial.Queue` | charmhelpers/coordinator.py:405-413 | exactly the units that request the lock and have no grant, in strict order of (timestamp, unit) |
| `Coordinator.Serial.Handle` | charmhelpers/coordinator.py:358-384 | on a leader the two loops leave exactly the grants `HandleDecides` describes, whatever order the dicts iterate in |
| `Coordinator.Serial.ClearReleased` | charmhelpers/coordinator.py:365-379 | one unit's grants keep exactly those whose timestamp is still requested |
| `Coordinator.Serial.GrantRequests` | charmhelpers/coordinator.py:381-384 | granting request by request, in any order, ends in the same grants |
| `Coordinator.Serial.ReleaseGranted` | charmhelpers/coordinator.py:552-563 | exactly the granted requests of the unit are removed |
| `Lifecycle.Hook.constructor` | charmhelpers/coordinator.py:253-271 | the coordinator's start callbacks are registered in order, nothing for the exit yet |
| `Lifecycle.Hook.Call` | charmhelpers/coordinator.py:286-298 | initializing registers the save and then the release for the exit |
| `Lifecycle.Hook.RunAtstart` | charmhelpers/core/hookenv.py:1347-1352 | start callbacks run in order and leave the opening state: loaded and, on a leader, handled |
| `Lifecycle.Hook.RunAtexit` | charmhelpers/core/hookenv.py:1355-1361 | exit callbacks run in reverse, others' before and after the coordinator's two included, so the release comes before the save |
| `Lifecycle.Hook.RunBody` | charmhelpers/core/hookenv.py:960-973 | any number of `acquire` calls, one after the other |
| `Lifecycle.Hook.Execute` | charmhelpers/core/hookenv.py:960-973 | something is written if and only if the hook is known and returns or exits with no code or 0; it is then the outcome of opening, asking and releasing, and the exit callbacks registered before it run after that |
| `Lifecycle.Hook.ExecuteAction` | actions/actions.py:358-378 | something is written if and only if the action is known and returns or raises |
| `Protocol.InitInv` | charmhelpers/coordinator.py:466-494 | the invariant holds before any hook has run |
| `Protocol.StepInv` | charmhelpers/coordinator.py:300-424 | every step of every unit, with stale grants read and leadership moving between hooks, keeps the invariant |
| `Protocol.RunInv` | charmhelpers/coordinator.py:300-424 | so does every run |
| `Protocol.InvExcludes` | charmhelpers/coordinator.py:323-343 | under the invariant at most one unit is in a hook in which a lock is granted, a leader that granted itself without publishing included |
| `Protocol.MutualExclusion` | charmhelpers/coordinator.py:323-424 | over every run from an initial state, harmless failures at any point included, no two units hold the same lock at the same time |
| `Protocol.HolderIsPublished` | charmhelpers/coordinator.py:337-343 | a holder that does not lead holds under a grant that is still in leader settings, however old the grants it read |
| `Protocol.CommitFence` | charmhelpers/coordinator.py:560-563 | a request saved at the end of a hook never matches an old grant: a unit that released and asked again cannot hold under its former grant |
| `Protocol.LiveIsOnPeer` | charmhelpers/coordinator.py:504-520 | outside a leader's two writes, a live grant answers a request published on the relation |
| `Refinement.OthersLeaveHook` | charmhelpers/coordinator.py:466-494 | no other unit's step touches a hook in flight |
| `Refinement.ReadIsOneAnswer` | charmhelpers/coordinator.py:526-529 | each read of a loading hook is one iteration of the object's loop |
| `Refinement.LoadingReads` | charmhelpers/coordinator.py:522-530 | at every point of a load, whatever others do meanwhile, the hook has in memory the settings it began with and what it has been answered so far |
| `Refinement.LoadingIsHeard` | charmhelpers/coordinator.py:466-530 | from begin to start, in any interleaving, a load is the object's load of one answer from each listed unit, each as the relation was when that unit was read |
| `Refinement.StartIsOpening` | charmhelpers/coordinator.py:358-384 | the protocol's start of a hook is the object's loading and handling |
| `Refinement.BodyIsAskAll` | charmhelpers/coordinator.py:300-335 | in any interleaving a hook's view is what its own `acquire` calls make of it |
| `Refinement.HookPublishesWrites` | charmhelpers/coordinator.py:466-563 | in any interleaving a whole hook, from its begin to its commit, publishes exactly the grants and requests that the object's `Execute` writes when answered what the hook heard |
| `HalfPublished.FailureIsHarmfulExactlyWhenStranded` | charmhelpers/coordinator.py:504-520 | in every state the invariant holds of, a hook dropped at any point can lead to two holders of a lock if and only if its unit has published a grant that answers a request still only in its own file |
| `HalfPublished.StrandedIsReachable` | charmhelpers/coordinator.py:504-520 | runs from an initial state lead there, for any two units, lock and time, and on to two holders |
| `Overlooked.LoadIsHarmfulExactlyWhenOverlooking` | charmhelpers/coordinator.py:522-530 | in every state the invariant holds of, a leader's load of current grants can lead to two holders of a lock if and only if a unit with a live grant is not listed to it |
| `Faults.LiveGrantSurvives` | charmhelpers/coordinator.py:365-379 | a live grant ends only by its unit's own successful hook or departure |
| `Faults.LiveGrantSurvivesRun` | charmhelpers/coordinator.py:365-379 | the same over any run |
| `Faults.FailedHookPublishesNothing` | charmhelpers/core/hookenv.py:960-973 | an unknown hook, and one that raises or exits with any code but 0, is the protocol's failure: nothing is published and what is granted to its unit stays live; no other hook ends like that |
| `Faults.FailedHolderHoldsAgain` | charmhelpers/core/hookenv.py:960-973 | after a failed hook, whatever others do meanwhile, the unit's next hook with current grants holds the lock again |
| `Faults.DepartedUnitLosesLocks` | charmhelpers/coordinator.py:365-384 | the next leader hook to begin after a departure clears the unit's grants and gives its lock to the head of the queue |
| `Faults.HandleAfterDeparture` | charmhelpers/coordinator.py:365-384 | the same for one `handle` whose requests no longer name the unit |
| `Fairness.AsksOnce` | charmhelpers/coordinator.py:314-320 | a unit has one timestamp for a lock at a time, saved or in flight |
| `Fairness.NoNewEarlier` | charmhelpers/coordinator.py:320-320 | while a request is published no step makes a new request that sorts before it |
| `Fairness.GrantsGoToEarlier` | charmhelpers/coordinator.py:405-424 | a lock granted to somebody else while a request waits goes to a request that was made, and sorts, before it |
| `Fairness.BoundedBypass` | charmhelpers/coordinator.py:358-415 | in leader hooks that start after a request is published, any other unit is granted that lock under one timestamp at most before it |
| `Fairness.AheadShrinks` | charmhelpers/coordinator.py:560-563 | the units ahead of a waiting request only become fewer, and each release of an earlier request removes one |
| `Fairness.QueueAheadDrains` | charmhelpers/coordinator.py:358-415 | along any run the earlier requests released plus those still ahead never exceed those ahead at the start |
| `Fairness.HandleServesTicket` | charmhelpers/coordinator.py:358-384 | each `handle` gives the lock to the waiting unit, to a live holder or to a unit ahead; to the waiting unit once nobody is ahead or holds it |
| `Fairness.ServedWhenAllAheadReleased` | charmhelpers/coordinator.py:358-415 | once every earlier request has been served and released, the next leader hook to begin gives the waiting unit the lock unless it finds a live holder |
| `Projection.AgreeHandled` | charmhelpers/coordinator.py:382-424 | what `handle` decides for a lock depends on that lock's entries alone |
| `Projection.AgreeAcquire` | charmhelpers/coordinator.py:300-335 | so does `acquire` |
| `Projection.OtherAcquire` | charmhelpers/coordinator.py:300-335 | an `acquire` of another lock changes nothing about this one, the stray entry included |
| `Projection.FollowsStep` | charmhelpers/coordinator.py:300-424 | every step is a step, or none, of the run restricted to one lock |
| `Projection.RunFollows` | charmhelpers/coordinator.py:300-424 | and every run a run |
| `Projection.LocksAreIndependent` | charmhelpers/coordinator.py:382-424 | without the calls for other locks a run is still a run, with the same grants, requests and holders of the lock, and nobody in it ever requests another |
| `AcquireContract.FirstTimestampStays` | charmhelpers/coordinator.py:314-320 | over any calls in a hook an outstanding request keeps its timestamp, and a new one has that of the first call |
| `AcquireContract.HeldUntilTheEnd` | charmhelpers/coordinator.py:323-335 | a held lock stays held until the hook ends |
| `AcquireContract.AcquireReportsHolding` | charmhelpers/coordinator.py:300-335 | in every hook of every run, leading or not, `acquire` returns True if and only if its unit holds the lock afterwards |
| `AcquireContract.OthersOnlyCollect` | charmhelpers/coordinator.py:323-335 | a unit that does not lead holds exactly what was granted before the hook |
| `AcquireContract.ReleaseGivesUpGranted` | charmhelpers/coordinator.py:552-563 | the release gives up the granted requests and keeps the timestamps of the others |
| `AcquireContract.AskAllAlike` | charmhelpers/coordinator.py:319-319 | with and without the stray entries a hook's calls lead to the same grants and lookups |
| `AcquireContract.StrayRowsNeverShow` | charmhelpers/coordinator.py:319-319 | and everything the hook writes is the same |
| `Restarts.Charm.ManageRestart` | hooks/rabbitmq_server_relations.py:156-194 | a coordinated restart runs if and only if its lock is granted |
| `Restarts.Charm.CoordinatedUpgrade` | hooks/rabbitmq_server_relations.py:197-205 | the upgrade runs if and only if its lock is granted, and then the configuration step, with the restart it may ask for |
| `Restarts.Charm.CoordinatedCluster` | hooks/rabbitmq_server_relations.py:208-219 | the join runs if and only if its lock is granted |
| `Restarts.Charm.CheckCoordinatedFunctions` | hooks/rabbitmq_server_relations.py:222-226 | the check, with every run logged beside the coordinator's state at that moment |
| `Restarts.CheckRunsWhatIsHeld` | hooks/rabbitmq_server_relations.py:222-226 | the check gives nothing up, takes no lock but the restart's, and has run all that is held after it |
| `Restarts.CheckRunsNothingElse` | hooks/rabbitmq_server_relations.py:222-226 | and nothing else: the upgrade once if its lock is granted at the start, the join once if its lock is granted after the upgrade, the restart once more if its lock is granted at the end, besides one in the upgrade's configuration |
| `Restarts.CheckRunsInOrder` | hooks/rabbitmq_server_relations.py:222-226 | upgrade, join, restart: no upgrade follows anything, and only restarts follow a join |
| `Restarts.CheckRunsUnderLocks` | hooks/rabbitmq_server_relations.py:156-226 | every run is made in a state in which its lock is granted, but for a restart that a deferred-hooks action forces |
| `Restarts.HookRunsUnderLocks` | hooks/rabbitmq_server_relations.py:156-226 | the same for all that a hook runs from the check to its end; each run is made after some of the hook's own `acquire` calls |
| `Restarts.RunsWhileHolding` | hooks/rabbitmq_server_relations.py:156-226 | in the protocol, whatever others do meanwhile, each function that is not forced runs while its unit and no other holds the function's lock |
| `Restarts.Charm.CoordinatedRestartOnChange` | hooks/rabbit_utils.py:1550-1590 | no request and no restart when paused or unchanged; a forced restart in a deferred-hooks action; otherwise an older request keeps its time and the restart runs if and only if the lock is held |
| `Restarts.Charm.CheckThenRelease` | charmhelpers/coordinator.py:552-563 | the check, any decorated functions after it and the release, in one hook |
| `Restarts.GivenUpHasRun` | charmhelpers/coordinator.py:552-563 | nothing held when the check begins is still requested at the end of the hook, and every request the release gives up has been run |
| `Restarts.GivenUpUnrun` | charmhelpers/coordinator.py:552-563 | a hook that does not reach the check gives up a lock without having run what it guards if and only if it held the lock from the start and the lock is not the restart's or no decorated function came to a change |
| `Restarts.ChangeRunsWhatItTakes` | hooks/rabbit_utils.py:1563-1589 | a decorated function takes no lock but the restart's and gives none up; paused or unchanged it runs nothing, in a deferred-hooks action it restarts once, and otherwise once if and only if it then holds the lock |
| `Restarts.CoordinatedFunctionsNeverOverlap` | hooks/rabbitmq_server_relations.py:156-226 | over every run no two units are inside the same coordinated function at the same time |
| `Restarts.RequestKept` | charmhelpers/coordinator.py:314-320 | a saved request stays under its timestamp through every step but its unit's departure or the release of the granted lock |
| `Restarts.UngrantedRequestKeepsItsTime` | charmhelpers/coordinator.py:314-320 | so it does through any number of hooks, failed ones included |
| `Timestamp.PadOrder` | charmhelpers/coordinator.py:596-596 | zero-padded numbers of one width are ordered and equal as texts exactly as they are as numbers |
| `Timestamp.RenderOrder` | charmhelpers/coordinator.py:596-596 | fixed-width fields with separators are ordered as texts exactly as field by field |
| `Timestamp.FormatWrittenOut` | charmhelpers/coordinator.py:596-605 | the text, field by field |
| `Timestamp.DaysBeforeYearClosed` | charmhelpers/coordinator.py:599-605 | the calendar behind the order of instants, in closed form |
| `Timestamp.TextOrderIsTimeOrder` | charmhelpers/coordinator.py:596-605 | for four-digit years the texts are ordered exactly as the instants, leap years included |
| `Timestamp.ParseUndoesFormat` | charmhelpers/coordinator.py:376-377 | parsing a formatted time gives the time back |
| `Timestamp.FormatUndoesParse` | charmhelpers/coordinator.py:376-377 | a text that parses is the formatted text of its time |
| `Timestamp.TimestampNotEmpty` | charmhelpers/coordinator.py:316-316 | a timestamp is never mistaken for a missing request |
| `PeerStorage.LeaderStore.LeaderGet` | charmhelpers/contrib/peerstorage/__init__.py:68-121 | a single read answers leader settings, or migrates a peer value not migrated before |
| `PeerStorage.ReadOneExactly` | charmhelpers/contrib/peerstorage/__init__.py:68-119 | a single read answers the leader's value, else the peer's for a key not marked; it marks the key if and only if it answers with a value, and touches no other |
| `PeerStorage.LeaderStore.LeaderGetAll` | charmhelpers/contrib/peerstorage/__init__.py:68-121 | a bulk read answers leader settings over the peer values not migrated before, and stores the merge |
| `PeerStorage.ReadAllExactly` | charmhelpers/contrib/peerstorage/__init__.py:95-121 | a bulk read answers alike for every key, stores what it answers, and marks exactly the peer's keys |
| `PeerStorage.ReadFinds` | charmhelpers/contrib/peerstorage/__init__.py:68-94 | a read finds a value if and only if leader settings or, for a key not migrated, the peer has one |
| `PeerStorage.MigrationIsOneWay` | charmhelpers/contrib/peerstorage/__init__.py:68-121 | over any reads and peer changes an existing leader value is never overwritten and a migrated key never pulled again |
| `PeerStorage.ClearedStaysCleared` | charmhelpers/contrib/peerstorage/__init__.py:68-121 | a migrated key that is cleared stays cleared |
| `PeerStorage.ReadThenCleared` | charmhelpers/contrib/peerstorage/__init__.py:87-102 | a key that a single read has answered with a value and that is then cleared stays cleared |
| `PeerStorage.RemoveShortens` | charmhelpers/contrib/peerstorage/__init__.py:181-183 | removing a text changes a key if and only if the text occurs in it |
| `PeerStorage.KeyComesBack` | charmhelpers/contrib/peerstorage/__init__.py:181-183 | a prefixed key comes back if and only if the prefix does not recur in it |
| `PeerStorage.RecurringPrefixExample` | charmhelpers/contrib/peerstorage/__init__.py:181-183 | a concrete key that comes back under another name |
| `PeerStorage.PrefixesApart` | charmhelpers/contrib/peerstorage/__init__.py:252-262 | relation ids without the delimiter never share stored keys |
| `PeerStorage.StoresAreIsolated` | charmhelpers/contrib/peerstorage/__init__.py:252-262 | storing for one relation changes nothing stored for another |
| `PeerStorage.OthersDoNotAffect` | charmhelpers/contrib/peerstorage/__init__.py:252-262 | nor does any number of such stores |
| `PeerStorage.StoredAfterStore` | charmhelpers/contrib/peerstorage/__init__.py:239-266 | each stored item is there under its own key, an empty one is gone, all else is as before |
| `PeerStorage.RetrievedIsStored` | charmhelpers/contrib/peerstorage/__init__.py:171-188 | where the prefix recurs in no stored key, retrieval returns exactly the wanted stored settings, unchanged |
| `PeerStorage.RetrievedIsStoredExactly` | charmhelpers/contrib/peerstorage/__init__.py:171-188 | without filters, retrieval returns exactly what is stored if and only if the prefix recurs in no stored key |
| `PeerStorage.RoundTrip` | charmhelpers/contrib/peerstorage/__init__.py:171-188 | once stored for a relation, settings are retrieved as they were after any stores for others, together with what was stored for it before |
| `PeerStorage.GivenComesBackExactly` | charmhelpers/contrib/peerstorage/__init__.py:252-262 | what `peer_store_and_set` is given is retrieved, after any stores for others, if and only if the peer relation was made or the same values were stored before |
| `PeerStorage.LoneUnitExample` | charmhelpers/contrib/peerstorage/__init__.py:256-262 | a lone unit's client password is not retrieved |
| `PeerStorage.Peers.PeerStoreAndSet` | charmhelpers/contrib/peerstorage/__init__.py:239-266 | the settings go on the relation, or into leader settings for the peer relation itself, and their prefixed copies are stored if and only if the peer relation is made; an error if it is not and that is fatal |
| `PeerStorage.Peers.StoreItems` | charmhelpers/contrib/peerstorage/__init__.py:256-262 | every item, in any order |
| `PeerStorage.Peers.PeerRetrieveByPrefix` | charmhelpers/contrib/peerstorage/__init__.py:171-188 | exactly the settings under the prefix, filtered and renamed |
| `Passwords.PasswordStore.MigratePasswords` | hooks/rabbit_utils.py:1209-1220 | with a peer relation every file's password takes the place of the stored one, a blank one leaving none, and all files are gone; without one nothing happens |
| `Passwords.PasswordStore.GetOnDisk` | hooks/rabbit_utils.py:1186-1206 | an existing file answers, stripped; otherwise the choice is written and answered |
| `Passwords.PasswordStore.GetRabbitPassword` | hooks/rabbit_utils.py:1265-1281 | answers the user's password if there is one, else the given or else the generated one, and settles it in peer storage or on disk; a local call answers and writes the local file alone |
| `Passwords.StoredIsSafe` | hooks/rabbit_utils.py:1214-1217 | between storing a password and removing its file every user's password is what it was |
| `Passwords.UnlinkIsSafe` | hooks/rabbit_utils.py:1217-1217 | and so it is after the file is removed |
| `Passwords.MigrationKeeps` | hooks/rabbit_utils.py:1209-1220 | where no file is blank the whole migration changes no user's password |
| `Passwords.MigrationKeepsExactly` | hooks/rabbit_utils.py:1209-1220 | a migration keeps every user's password if and only if there is no peer relation or no file is blank |
| `Passwords.BlankFileExample` | hooks/rabbit_utils.py:1209-1220 | a blank file beside a stored password: the password is erased and another one answered |
| `Passwords.PasswordsAreStable` | hooks/rabbit_utils.py:1265-1281 | over any calls, reads and the appearance of the peer relation, every call for a user answers the same password |
| `Passwords.FirstAnswerStays` | hooks/rabbit_utils.py:1265-1281 | the first answer becomes the user's password if and only if peer storage took it or it is free of surrounding white space |
| `Passwords.LocalAnswersAreStable` | hooks/rabbit_utils.py:1186-1206 | over any local calls, every later one for a user answers what the first did if and only if that came from a file or is free of surrounding white space |
| `Passwords.StripExactly` | hooks/rabbit_utils.py:1197-1197 | stripping takes away the white space at both ends, all of it and nothing else |
| `Passwords.RotationTakesEffect` | hooks/rabbitmq_server_relations.py:346-358 | a rotation takes effect if and only if the peer relation exists and the user's file has been migrated |
| `Passwords.RotationLostToFile` | hooks/rabbitmq_server_relations.py:346-358 | while the user's file is on disk, its password is answered from then on, whatever was rotated in |
| `Passwords.RotationLostExample` | hooks/rabbitmq_server_relations.py:346-358 | a concrete lost rotation |
| `Broker.Server.CreateVhost` | hooks/rabbit_utils.py:551-555 | a command exactly for a missing virtual host |
| `Broker.Server.CreateUser` | hooks/rabbit_utils.py:562-602 | a missing user is added, and the tags are set unless the broker says they are right |
| `Broker.Server.GrantPermissions` | hooks/rabbit_utils.py:623-660 | permissions are set unless the broker lists exactly one row of full access |
| `Broker.Server.ComparePolicy` | hooks/rabbit_utils.py:663-717 | True if and only if the broker has this very policy under the name |
| `Broker.Server.SetPolicyIfNeeded` | hooks/rabbit_utils.py:720-764 | the policy is set unless the broker says it is there |
| `Broker.Server.ConfigureTtls` | hooks/rabbit_utils.py:890-920 | the charm's policy and the client's, for the one virtual host they apply to |
| `Broker.Server.ConfigureAmqp` | hooks/rabbitmq_server_relations.py:248-323 | no relation id changes nothing; a tracked request changes nothing; otherwise one pass, and the request is tracked |
| `Broker.Server.ValidateTracker` | hooks/rabbitmq_server_relations.py:229-245 | on a unit that does not lead every tracked entry, and nothing else, becomes stale |
| `Broker.PassChanges` | hooks/rabbitmq_server_relations.py:299-318 | everything a pass leaves on the broker: one virtual host, one user and its kept password, one pair's permissions and the overlaid policies, all else untouched |
| `Broker.PassIsIdle` | hooks/rabbitmq_server_relations.py:299-318 | a pass issues no command if and only if the broker can be asked and has all that is wanted |
| `Broker.PassDelivers` | hooks/rabbitmq_server_relations.py:299-318 | after a pass virtual host, user, tags and full access are there, and all policies if and only if no name clashes |
| `Broker.PassAsAsked` | hooks/rabbitmq_server_relations.py:299-318 | after a pass everything asked for is on the broker, written out: virtual host, user with the tag `administrator` if and only if `admin`, full access, each policy with its pattern, value, priority and target; other policies and a known user's password are as before |
| `Broker.SkippedExactlyWhen` | hooks/rabbitmq_server_relations.py:283-295 | a request of a relation configured before is skipped if and only if user, virtual host, TTL and mirroring are the same |
| `Broker.ChangedRequestIsConfigured` | hooks/rabbitmq_server_relations.py:283-323 | a request that differs in one of these is met in full, with its own TTL, and is what is tracked from then on |
| `Broker.SecondPassIsSilent` | hooks/rabbitmq_server_relations.py:299-318 | a second pass issues no command if and only if the broker can be asked and no name clashes |
| `Broker.NameClashExample` | hooks/rabbitmq_server_relations.py:299-318 | a client policy named "TTL": a second pass issues commands again |
| `Broker.ReadyStays` | hooks/rabbitmq_server_relations.py:299-318 | no sequence of commands, complete or cut short, takes away a client's virtual host, user or access |
| `Broker.PassRunsItsCommands` | hooks/rabbitmq_server_relations.py:299-318 | the broker after a pass is the one its issued commands lead to |
| `Broker.FastPathIsSafe` | hooks/rabbitmq_server_relations.py:283-323 | over every run of this unit's passes, complete or cut short, and of other leaders' passes, the fast path is taken only where virtual host, user and access are there, noticed or not; after any other change to the broker, once the decorated function has been called while not leading |
| `Broker.TrackerTrueMeansSafe` | hooks/rabbitmq_server_relations.py:283-293 | the fast path is safe for every request if and only if every current entry of the tracker has its virtual host, user and access |
| `Broker.UnnoticedChangeIsHarmless` | hooks/rabbitmq_server_relations.py:229-245 | a change of the broker that this unit does not notice leaves the fast path safe if and only if it leaves what every current entry relies on |
| `Broker.UnnoticedChangeIsSkipped` | hooks/rabbitmq_server_relations.py:283-293 | after such a change a configured request is skipped, and is met if and only if the changed broker meets it |
| `Broker.NoticedChangeIsRepaired` | hooks/rabbitmq_server_relations.py:229-245 | after a noticed change no request is skipped, and the next pass brings everything back, all policies if and only if no name clashes |
| `Broker.UnnoticedChangeExample` | hooks/rabbitmq_server_relations.py:477-479 | a configured broker that loses everything: the next request is skipped and nothing is there |
| `Broker.UntrackedChangeIsMissed` | hooks/rabbitmq_server_relations.py:283-293 | a request that differs only in what is not tracked is skipped; its tags are right if and only if `admin` did not change, its policies if and only if each is the one left under its name by the first request |
| `Broker.RenamedPolicyIsMissed` | hooks/rabbitmq_server_relations.py:283-293 | a policy that is only renamed, to a name not in use, is not set |
| `Broker.RenamedPolicyExample` | hooks/rabbitmq_server_relations.py:283-293 | a concrete renamed policy on a new broker |
| `KvStore.Storage.SetValue` | charmhelpers/core/unitdata.py:276-326 | the value is stored, and recorded under the open revision if it changed and revisions are kept |
| `KvStore.SetRecordsChanges` | charmhelpers/core/unitdata.py:276-326 | a history row is written for a key if and only if its value changes, under the open revision and where revisions are kept; nothing else changes |
| `KvStore.LastWriteIsRead` | charmhelpers/core/unitdata.py:201-208 | what is read back after any writes is the last value written under the key, or else what was there |
| `KvStore.Storage.UpdateValues` | charmhelpers/core/unitdata.py:231-240 | every prefixed key, in any order of the mapping |
| `KvStore.UpdateRecordsChanges` | charmhelpers/core/unitdata.py:231-240 | the same for an update, key by key |
| `KvStore.Storage.GetRange` | charmhelpers/core/unitdata.py:210-229 | exactly the keys SQL LIKE matches, whole or stripped; on a clash of stripped keys one of their values |
| `KvStore.Storage.Delta` | charmhelpers/core/unitdata.py:328-355 | exactly the keys whose value differs from the stored range, with both values |
| `KvStore.Storage.HookScope` | charmhelpers/core/unitdata.py:357-375 | a scope commits if its body returns, rolls back if it raises, does neither and stays open if it exits, and does not nest |
| `KvStore.ReturningScopeCommits` | charmhelpers/core/unitdata.py:357-375 | a scope that returns commits the last value written under each key, in a new revision, and leaves the history of earlier hooks as it was |
| `KvStore.LikeSelf` | charmhelpers/core/unitdata.py:220-220 | a key that begins with the prefix is always in the range |
| `KvStore.LikePercent` | charmhelpers/core/unitdata.py:220-220 | `%` matches any text |
| `KvStore.LikeCharacter` | charmhelpers/core/unitdata.py:220-220 | `_` matches any one character, any other character itself in either case |
| `KvStore.LikeIsFoldedPrefix` | charmhelpers/core/unitdata.py:220-220 | without wildcards the range is exactly the keys that begin with the prefix up to letter case |
| `KvStore.DeltaAfterUpdate` | charmhelpers/core/unitdata.py:328-355 | after an update a delta of the same mapping shows only keys absent from it, if and only if no other key is shadowing one |
| `KvStore.WildcardPrefixShadows` | charmhelpers/core/unitdata.py:220-220 | a concrete store in which one is |
| `KvStore.WritesKeepHistory` | charmhelpers/core/unitdata.py:276-326 | writes inside a scope keep each key's newest history row equal to its value |
| `KvStore.HistoryIsFaithful` | charmhelpers/core/unitdata.py:276-375 | so do any number of scopes, ending well, with an exception or with the process |
| `KvStore.RaisingScopeRestores` | charmhelpers/core/unitdata.py:357-375 | a scope that raises, or exits once the store is opened again, leaves exactly the last committed tables |
| `KvStore.RaisingScopeKeepsFlushed` | charmhelpers/core/unitdata.py:357-383 | a scope that raises goes back to its last flush |
| `HostsFile.KeepLines` | hooks/rabbit_utils.py:1301-1307 | exactly the lines that neither start with the address nor name the host, in order, or the IndexError |
| `HostsFile.KeptExactly` | hooks/rabbit_utils.py:1302-1305 | a line is kept if and only if it is shorter than two characters or no entry with an address and a name finds its address first or its name later on it |
| `HostsFile.FailsExactly` | hooks/rabbit_utils.py:1297-1304 | the IndexError comes if and only if there is an entry with an address and a name and a line of two or more characters that are all white space |
| `HostsFile.UpdateHostsFile` | hooks/rabbit_utils.py:1284-1320 | the lines no entry conflicts with, in order, followed by one line for each entry; an IndexError exactly on blank lines of two characters or more once an entry is used |
| `HostsFile.ReadLinesShape` | hooks/rabbit_utils.py:1290-1291 | reading leaves at most the last line without its newline, that one if and only if the file lacks it, and loses nothing |
| `HostsFile.ReadBack` | hooks/rabbit_utils.py:1290-1317 | terminated lines are read back as they were written |
| `Text.TextModeEndsLines` | hooks/rabbit_utils.py:1290-1291 | read in text mode, a line ends in one newline whether it ended in a newline, a carriage return or both |
| `HostsFile.ReadsAsUpdated` | hooks/rabbit_utils.py:1284-1320 | what is written is read back as the updated lines if and only if the last line ended in a newline or is replaced, or there is nothing to add; otherwise that line has taken in the first new entry |
| `HostsFile.LineSplits` | hooks/rabbit_utils.py:1303-1310 | a written entry reads as its address and its name |
| `HostsFile.SecondUpdateIsIdentity` | hooks/rabbit_utils.py:1284-1320 | a second update with the same map never fails, and is the identity under exactly that condition; otherwise it deletes the line that took in an entry, old entry and all |
| `HostsFile.EachNameOnce` | hooks/rabbit_utils.py:1284-1320 | in the file read back every mapped name stands on exactly one line, its entry, under exactly that condition |
| `HostsFile.EachAddressOnce` | hooks/rabbit_utils.py:1284-1320 | in the file read back every mapped address begins exactly one line, its entry, under the same condition |
| `HostsFile.NewLinesOnce` | hooks/rabbit_utils.py:1309-1312 | no two new lines are the same |
| `HostsFile.GluedConflicts` | hooks/rabbit_utils.py:1302-1307 | a line that has taken in an entry names the entry's host, so the next update removes it |
| `HostsFile.UnterminatedLineIsGlued` | hooks/rabbit_utils.py:1309-1317 | any file of one address and name without a newline: the new entry is glued to it, and a second update removes both |
| `HostsFile.BlankLineExample` | hooks/rabbit_utils.py:1303-1304 | a concrete file on which the update raises the IndexError |
| `QueueStats.CollateStats` | files/check_rabbitmq_queues.py:41-66 | the nested loops add each stat that is not excluded to its keys |
| `QueueStats.MatchedCountsUnderFirst` | files/check_rabbitmq_queues.py:57-63 | a stat that no exclusion matches is added to the first limit that matches and to nothing else, but once to its own name if the busiest queues are asked for |
| `QueueStats.UnmatchedCountsUnderItself` | files/check_rabbitmq_queues.py:64-65 | where no limit matches it is added to its own name alone |
| `QueueStats.ExcludedCountsNowhere` | files/check_rabbitmq_queues.py:49-55 | where an exclusion matches it is added to nothing |
| `QueueStats.FirstLimitExample` | files/check_rabbitmq_queues.py:57-63 | a queue's own limit before a limit for all: its messages are counted under its own |
| `QueueStats.CollatedIsRouted` | files/check_rabbitmq_queues.py:41-66 | each key's total is the sum of the stats routed to it, and a key is there if and only if one is |
| `QueueStats.CollationConserves` | files/check_rabbitmq_queues.py:41-66 | without busiest queues the totals sum to the messages not excluded |
| `QueueStats.BusiestAddsOwnNames` | files/check_rabbitmq_queues.py:60-62 | with them a matched stat counts once more under its own name |
| `QueueStats.LimitsLookup` | files/check_rabbitmq_queues.py:71-73 | the last limit with the same patterns counts |
| `QueueStats.LimitIsLast` | files/check_rabbitmq_queues.py:71-73 | of the limits with one name the last one counts |
| `QueueStats.JudgeName` | files/check_rabbitmq_queues.py:77-87 | one key's report, or none |
| `QueueStats.CheckStats` | files/check_rabbitmq_queues.py:69-87 | the reports of all collated keys in order of name, or the one for an empty collation |
| `QueueStats.AlertsAreExact` | files/check_rabbitmq_queues.py:83-87 | CRIT if and only if the total reaches the critical threshold, WARN if and only if it reaches the warning one and not that |
| `QueueStats.UnlimitedIsUnknown` | files/check_rabbitmq_queues.py:79-82 | UNKNOWN if and only if the key has no limit |

## Left out

- Custom `grant_<lock>` methods: the charm uses `Serial`, whose default rule is modelled.
- `released`, `msg`, `_emit_state`, `requested`, `request_timestamp` and `require`: reports and wrappers around the modelled state.
- A second coordinator class beside `Serial`, and the singleton machinery.
- The hook tools, JSON, YAML, sqlite and files: leader settings, relations, tables and files are maps and sequences, and a read answers what was written.
- `Lifecycle.Hook.RunBody`: the body is a sequence of `acquire` calls; what else a hook does has no effect on the coordinator.
- `Timestamp.FormatUndoesParse`: fields have their full width; the shorter fields that `strptime` also accepts are not modelled, nor are local times.
- `Restarts.Charm.ManageRestart`: the restart itself, deferred restarts, the wait for the application and the client update that follow are recorded as one entry in `ran`.
- `Restarts.Charm.CoordinatedUpgrade`: the installation is one entry in `ran`; of the configuration step only what its decorator does is modelled.
- `Restarts.Charm.CoordinatedCluster`: the join and the client update are one entry in `ran`.
- `Restarts.Charm.CoordinatedRestartOnChange`: which files changed is a parameter; the wrapped function is the code before it.
- `Restarts.Charm.CheckThenRelease`: requests for the other two locks after the check are left out; where the charm makes one, it calls the function the lock guards at once.
- `Restarts.GivenUpUnrun`: of the hook's code only its decorated functions; direct calls of a guarded function right after its `acquire` are left out.
- `PeerStorage.LeaderStore.LeaderGet`: the attribute `-`, the marker settings and leaders without leader settings support are left out.
- `PeerStorage.Peers.PeerRetrieveByPrefix`: which setting wins when two keys are renamed to the same name is left open, as the order of the settings is.
- `peer_echo`, and the relation functions that choose between leader settings and the peer relation on a unit that does not lead.
- `Passwords.RotationTakesEffect`: only what a rotation stores; its guards, the broker's own password and the update of the clients' relations are left out.
- `Passwords.PasswordStore.GetOnDisk`: file modes and owners.
- `Broker.Server.ConfigureAmqp`: the password is a parameter, since it comes from the password store, and the saved tracker is a field.
- `Broker.Server.ComparePolicy`: at most one policy of a name per virtual host, as the broker keeps them; definitions are the values of their JSON text.
- The raw output of `rabbitmqctl`, the failing list of virtual hosts that reads as empty, user lists with the same user twice, `clear_policy` and the HA modes the charm does not use.
- `KvStore.HistoryIsFaithful`: `unset` and `unsetrange`, whose rows can collide with those of `set` in one revision, and `gethistory`.
- `HostsFile.UpdateHostsFile`: a file is text, read in text mode as `TextMode` says; white space is the ASCII kind; the temporary file and the move into place are one write.
- `fnmatchcase` is an arbitrary function of text and pattern.
- `top_n_queues`, `gen_stats` and the freshness check of the statistics file: a sort, a parser and a clock.
