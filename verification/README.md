# EQUIPA: verified models

EQUIPA runs coding agents: it spawns the agent's CLI under a small launcher,
retries and watches it, merges a per-run configuration over the host's, keeps
lessons and configuration versions in a database and sanitizes what goes back
into a prompt. This project models the parts of it that are state machines or
transformations, and proves what they are for.

| file | models |
|---|---|
| `ProcessKernel.dfy`, `Containment.dfy` | the process table of a kernel with subreapers, zombies and reused pids; what a launcher that is a subreaper can rely on |
| `TreeWalk.dfy` | the two walks over a `/proc` snapshot |
| `Launcher.dfy`, `Rounds.dfy`, `Supervisor.dfy` | the launcher's signals, the rounds of its final sweep, reaping and loops, with arbitrary bursts of other processes' events between any two of its system calls |
| `Reaping.dfy`, `CliStatus.dfy`, `StatusLoss.dfy` | the sweeps of the reaping loop as values, and whose status they return |
| `AbortHeap.dfy`, `AbortController.dfy`, `AbortFamilies.dfy` | the heap of abort controllers, the controllers with re-entrant listeners and weak links, parents and children |
| `Json.dfy`, `PathTranslation.dfy`, `DispatchConfig.dfy` | dispatch configs: reading, flags, the merge of a per-run file, path translation |
| `RetryLoop.dfy`, `Watchdog.dfy`, `StopSignal.dfy`, `UvxOptions.dfy` | the agent runner's retry loops, no-edit watchdog, stop-signal handler and uvx option reader |
| `LessonMigration.dfy`, `MigrationRunner.dfy` | the lesson-dedup migration and the migration runner |
| `PhraseScan.dfy`, `Sanitizer.dfy` | the phrase scan, markup neutralization and the length caps |
| `CliIsolation.dfy`, `StaleScan.dfy` | the argv rewriting and the bounded scan for stale directories |
| `ConfigVersions.dfy` | redaction, blobs, the version chain, snapshot and rollback |
| `Wrappers.dfy` | an optional value |

`dafny verify dfyconfig.toml` checks everything. Code that changes state is a
class or a method with loops, proved against functions on values; the lemmas
are about those functions. What a program cannot see (clocks, other processes,
signals, random numbers, file contents, the text of errors) is a parameter, and
every theorem is for all of its values. Unicode tables, regular expressions,
hashes and the JSON codec are parameters too; the few facts used of them are
named predicates (`Text.FoldsPaths`, `Sanitizer.Sound`, `PhraseScan.Fits`,
`ConfigBlob.RoundTrips`).

## What the proofs found

Where a promise of the code does not hold in general, the model keeps the code
as it is and states exactly when the promise holds.

- `main` goes on when `PR_SET_CHILD_SUBREAPER` fails. Then an empty walk proves
  nothing (`Containment.WithoutSubreaperAProcessEscapes`).
- `_reap_children` compares pids only. If an orphan reuses the CLI's pid within
  one sweep, its status is returned (`StatusLoss.RecycledPidTakesTheStatus`,
  `Supervisor.AWrongStatus`). That can happen exactly if anything the CLI started,
  or the CLI itself, can still act when the sweep begins
  (`StatusLoss.StatusIsOwnIff`).
- `create_child_abort_controller` documents that the child's listener is removed
  from the parent. It is not, since the parent holds a once-wrapper
  (`AbortControllers.NotBare`); the leftover does nothing
  (`AbortFamilies.LeftoverIsHarmless`). The cascade carries one reason only as far
  as the listeners abort for it too (`AbortFamilies.CascadeReason`,
  `AbortFamilies.ASiblingMaySayTheReason`).
- `get_retry_delay` raises OverflowError after attempt 1024
  (`RetryLoop.NeverRaisesIff`).
- The reading-ratio kill looks for `Read:` in signatures written `Read|...`, so it
  never fires (`Watchdog.CountedIff`, `Watchdog.ReadersNeverTripTheRatio`). The
  final warning is given once per run, so a relapsing reader is stopped by the kill
  threshold alone (`Watchdog.RelapseRunsToTheKill`). From the sixth paralysis retry
  on, the kill may come before the final warning
  (`Watchdog.FinalWarningComesBeforeTheKillIff`,
  `Watchdog.TheSixthRetryIsKilledFirst`).
- A stop signal is deferred while a config directory is made, but a Python SIGINT
  handler is not taken over: a KeyboardInterrupt between mkdtemp and the
  registration leaves the directory behind (`StopSignal.NeverStrandsIff`). Of
  several deferred signals only the last is sent again, and none if an exception
  leaves the finally first (`StopSignal.AllAreResentIff`); a signal is lost for good
  in some timing exactly when SIGTERM has the handler and SIGINT has it too or a
  Python one (`StopSignal.NeverLosesIff`, `StopSignal.AnEarlierSignalIsLost`,
  `StopSignal.ACutSignalIsLost`). A finally left before it clears the record hands
  the signal to the next creation (`StopSignal.Process.Create`).
- `-o=value` and `-ovalue` differ for a value that begins with `=`
  (`UvxOptions.GluedIsAmbiguous`). A cluster of flags with a dash in it is refused
  although its parts are not (`UvxOptions.SplittingKeepsTheParseIff`,
  `UvxTable.SplittingADashChangesTheParse`).
- Escaping angles can be read back exactly for texts that do not spell `&lt;` or
  `&gt;` themselves (`Sanitizer.EscapingIsReversibleIff`).
- `enforce_limit` exceeds caps of 1 and 2, and negative ones, for every text it cuts
  (`Sanitizer.LimitHoldsIff`); `_cap_input` exceeds its cap from 10^21 dropped
  characters on (`Sanitizer.CapHoldsIff`).
- The tails read after rule headers are linear only for phrases that cannot start
  inside their own match (`PhraseScan.TailsAreLinear`,
  `PhraseScan.NestedTailsOverlap`).

## Model

| member | source | states |
|---|---|---|
| `ProcessKernel.ApplyKeepsWf` | equipa/agent_launcher.py:10-18 | Every fork, setsid, exit with reparenting, reap, signal and pid reuse keeps the process table a forest of live, older parents whose entries are the processes their birth records name |
| `ProcessKernel.ReaperStaysOnItsSide` | equipa/agent_launcher.py:13-18 | With the launcher as subreaper, an orphan of a process the CLI started goes to such a process or to the launcher, an orphan of any other process never does |
| `ProcessKernel.StepKeepsContained` | equipa/agent_launcher.py:10-18 | No step of the rest of the system moves a process across the boundary of what the CLI started |
| `Containment.SpawnIsContained` | equipa/agent_launcher.py:1397-1417 | The state in which main spawns the CLI is contained |
| `Containment.RunKeepsContained` | equipa/agent_launcher.py:10-18 | Containment holds after every run of system events |
| `Containment.WalkListsWhatTheCliStarted` | equipa/agent_launcher.py:242-266 | From the spawn on, after any run, one walk lists exactly the live processes the CLI started, directly or not, with their start times |
| `Containment.EmptyWalkIffQuiet` | equipa/agent_launcher.py:442-443 | A walk is empty exactly when nothing the CLI started is alive |
| `Containment.EmptyWalkIsFinal` | equipa/agent_launcher.py:446-475 | Once a walk is empty, no later step of anything makes a live descendant: a True result is permanent |
| `Containment.WithoutSubreaperAProcessEscapes` | equipa/agent_launcher.py:1402-1404 | If PR_SET_CHILD_SUBREAPER fails, which main tolerates, a two-event run leaves a live process of the CLI behind an empty walk |
| `Containment.RunIsLater` | equipa/agent_launcher.py:177-182 | Over any run birth records stay and a process still in the table is the one it was, so (pid, start time) identifies a process |
| `TreeWalk.DescendsIffChain` | equipa/agent_launcher.py:242-266 | Being a strict descendant is the existence of a chain of parent links |
| `TreeWalk.ListDescendants` | equipa/agent_launcher.py:242-266 | The worklist walk terminates on every forest and returns exactly the live strict descendants with their start times, walking through zombies, in whatever order the children files list them, and also when it falls back to the scan |
| `TreeWalk.ListByScan` | equipa/agent_launcher.py:269-288 | The full-scan fallback returns the same map |
| `TreeWalk.QueueChildren` | equipa/agent_launcher.py:257-265 | The loop over the children of one process queues all of them and reports the live ones only |
| `TreeWalk.IndexChildren` | equipa/agent_launcher.py:272-276 | The scan files every pid under its parent, once |
| `Launcher.SameBirth` | equipa/agent_launcher.py:177-182 | At most one process was ever born with a given pid and start time |
| `Launcher.PinnedSend` | equipa/agent_launcher.py:301-332 | A pidfd opened before and checked after reaches the recorded process or none, whatever exits and reuses pids in between |
| `Launcher.GoneStaysGone` | equipa/agent_launcher.py:311-322 | A recorded process that is missing stays missing, so a refusal to signal is right for good |
| `Launcher.ChildStays` | equipa/agent_launcher.py:375-391 | A child of the launcher stays its child, live or zombie, until the launcher reaps it |
| `Launcher.ReachedAsRecorded` | equipa/agent_launcher.py:301-309 | A signal sent through a pidfd reached the process born as the pid and start time that were recorded |
| `Launcher.DoomedAsRecorded` | equipa/agent_launcher.py:301-309 | Whatever is dying of a SIGKILL was so from the start, or the log holds a SIGKILL for its own birth, or it is what the CLI's signals hit |
| `Launcher.AnswersAlternate` | equipa/agent_launcher.py:402-426 | Over any sequence of wakes that do not time out early, forwards and SIGKILLs alternate, each SIGKILL at least the grace period after its forward |
| `CliStatus.ExitsAsItSaid` | equipa/agent_launcher.py:375-391 | A child of the launcher is a zombie with the status of its first exit, however the rest of the system goes on |
| `CliStatus.FirstHarvestIsTheCli` | equipa/agent_launcher.py:386-390 | In a sweep the first child taken under the CLI's pid is the CLI, with the status it exited with |
| `CliStatus.OwnStatusUnlessReborn` | equipa/agent_launcher.py:380-391 | If no event between the CLI's reap and the last one of the sweep gives a process its pid, the status returned is the CLI's own |
| `CliStatus.SpentIsSafe` | equipa/agent_launcher.py:380-391 | If nothing the CLI started can act when the sweep begins, every sweep returns the CLI's own status |
| `StatusLoss.NotSpentIsUnsafe` | equipa/agent_launcher.py:380-391 | If anything the CLI started, itself included, can still act, some sweep loses the CLI's status |
| `StatusLoss.StatusIsOwnIff` | equipa/agent_launcher.py:375-391 | Every sweep, whatever happens meanwhile and in whatever order children are returned, gives the CLI's own status exactly if nothing the CLI started can act any more when it begins |
| `StatusLoss.RecycledPidTakesTheStatus` | equipa/agent_launcher.py:386-390 | Every sweep of one script, in which an orphan gets the reaped CLI's pid, returns the orphan's 9; the CLI exited with 0 |
| `Supervisor.AWrongStatus` | equipa/agent_launcher.py:375-391 | The reaping loop run on that script returns 9 |
| `Supervisor.Host.Interleave` | equipa/agent_launcher.py:402-426 | Between two system calls one burst of events runs and may leave a signal pending; the logs stay honest and no process is doomed by it |
| `Supervisor.Host.Pause` | equipa/agent_launcher.py:402-426 | Whatever runs meanwhile, the launcher's children stay its children and every process still there is the one it was |
| `Supervisor.Host.Strike` | equipa/agent_launcher.py:320-338 | The only step that changes a process: SIGKILL dooms the process named, which must be in one of the two logs, and nothing else in the table changes |
| `Supervisor.Host.HitPinned` | equipa/agent_launcher.py:320-321 | A signal through a pidfd reaches the process named and is logged, once |
| `Supervisor.Host.HitByPid` | equipa/agent_launcher.py:420-425 | A signal by pid reaches the process named and is logged, once |
| `Supervisor.Host.OpenVerified` | equipa/agent_launcher.py:312-322 | Opening a pidfd, then comparing the start time, with events in between: what it still refers to is the recorded process, and if it refers to nothing that process is gone |
| `Supervisor.Host.SignalIdentity` | equipa/agent_launcher.py:301-342 | Each call logs one entry, with its time, and at most that one process got a signal, the recorded one; a recorded process gets it unless it is gone or may not be signalled; a SIGKILL leaves it gone, dying, or reported as not permitted |
| `Supervisor.Host.Walk` | equipa/agent_launcher.py:242-266 | The walk of the running launcher is the walk of the process table |
| `Supervisor.Host.WaitInfo` | equipa/agent_launcher.py:394-398 | A wait without a timeout ends by one of the pending signals it waits for, or blocks only when the rest of the system is done and none of them is pending |
| `Supervisor.Host.TimedWait` | equipa/agent_launcher.py:399-399 | A wait with a timeout ends by a pending signal, or no earlier than the timeout, and adds at most the timeout and a millisecond to the time the system takes |
| `Supervisor.Host.Wait` | equipa/agent_launcher.py:394-399 | A wait receives one pending signal, times out no earlier and, but for what the system does meanwhile, no later than asked, or blocks for good; the launcher's children stay its children |
| `Supervisor.Host.WaitPid` | equipa/agent_launcher.py:381-388 | One waitpid takes one exited child, with the pid, birth and exit status it has in the table, or none when none has exited |
| `Supervisor.Host.TakeChild` | equipa/agent_launcher.py:383-391 | The child returned leaves the table and nothing else changes |
| `Supervisor.Host.ReapOne` | equipa/agent_launcher.py:381-390 | One turn of the reaping loop keeps the last status seen for the CLI's pid and consumes a burst or a child |
| `Supervisor.Host.ReapChildren` | equipa/agent_launcher.py:375-391 | The reaping loop terminates, performs a sweep of the table it found until no exited child is left, and returns the status of the last child taken under the CLI's pid |
| `Supervisor.Host.ReapCli` | equipa/agent_launcher.py:411-413 | A status comes from a sweep that began with the CLI as child and is the last one under its pid; no status means it is still the launcher's child |
| `Supervisor.Host.KillCli` | equipa/agent_launcher.py:414-425 | A signal to the CLI reaches the CLI itself, which only the launcher can reap, and a SIGKILL dooms it |
| `Supervisor.Host.React` | equipa/agent_launcher.py:414-426 | A first termination signal is forwarded and sets the deadline, its passing sends SIGKILL and clears it, everything else is left alone |
| `Supervisor.Host.AwaitAndReact` | equipa/agent_launcher.py:414-426 | One turn of the loop receives one signal or times out, neither before nor later than the deadline but for what the system does meanwhile, answers it as the rule for one wake says, and makes progress; it blocks only without a deadline and when nothing is ever going to happen |
| `Supervisor.Host.SuperviseCli` | equipa/agent_launcher.py:402-426 | Over the whole loop every signal received is answered, forwards and SIGKILLs alternate and hit the CLI only, while unreaped; the status is the CLI's own unless its pid is given away during the last sweep; there is none only when nothing is ever going to happen: no event is left, no waited-for signal is pending and no kill is due |
| `Supervisor.Host.WaitForNoDescendants` | equipa/agent_launcher.py:429-443 | True only on an empty walk, False only after the timeout, and not waiting on past it |
| `Supervisor.Host.SignalAll` | equipa/agent_launcher.py:460-461 | Every recorded target gets the signal, unless it is gone or may not be signalled, and nothing else does, in any order |
| `Supervisor.Host.WalkAndSignal` | equipa/agent_launcher.py:456-470 | One round: the targets are exactly the walk of the table at that moment, each gets the signal and nothing else does |
| `Supervisor.Host.TermRound` | equipa/agent_launcher.py:457-463 | The first round sends SIGTERM to exactly the walk of the table it found; the sweep goes on only when the grace period is over, and waits no longer for it |
| `Supervisor.Host.KillRounds` | equipa/agent_launcher.py:464-475 | Rounds of SIGKILL, each for exactly a fresh walk, until a walk is empty or the timeout has passed since the first of them; the waits between them end with the timeout |
| `Supervisor.Host.TerminateDescendants` | equipa/agent_launcher.py:446-475 | On True and on False: the signals sent are one round of SIGTERM for the walk found at the start and then rounds of SIGKILL, none before the grace period is over and each for exactly the walk of its moment; True only on an empty walk; on False the kill timeout has passed since the first SIGKILL round and the survivors are what the last round listed and sent SIGKILL; the waiting is bounded by the two timeouts |
| `Supervisor.Host.SweepUp` | equipa/agent_launcher.py:1420-1420 | After a True sweep nothing the CLI started is alive after any further events; after a False one the survivors were sent SIGKILL when the timeout had passed |
| `Supervisor.Host.RunToTheEnd` | equipa/agent_launcher.py:1419-1421 | With a status the sweep starts on the table the last reaping left, signals in rounds as it should, and after a True one nothing the CLI started is alive after any further events; without one nothing is ever going to happen |
| `AbortControllers.AbortController.constructor` | equipa/abort_controller.py:24-27 | A new controller is not aborted, has no reason and no listeners |
| `AbortControllers.AbortController.RemoveCallback` | equipa/abort_controller.py:70-75 | Removes the first equal entry and nothing else, on any controller that may have it removed |
| `AbortControllers.AbortController.CallOne` | equipa/abort_controller.py:49-54 | One callback of the copied list is called, which is what raises its count, and has done what it is for, whatever it does to the hierarchy |
| `AbortControllers.AbortController.CallAll` | equipa/abort_controller.py:48-54 | The loop over the copied list calls every entry once, whatever the entries add, remove or abort meanwhile |
| `AbortControllers.AbortController.Abort` | equipa/abort_controller.py:36-54 | abort terminates under re-entrant aborts, keeps an earlier reason, calls every registered listener exactly once, each of which has done what it is for, reaches every live child, and touches no controller outside the given closed set |
| `AbortHeap.RestIsKept` | equipa/abort_controller.py:36-54 | If no controller was in the middle of its abort before, none is afterwards: everything aborted has fired all it registered, once, and reached its live children |
| `AbortHeap.CascadeCoversPath` | equipa/abort_controller.py:139-152 | Aborting the first controller of a path of live children aborts the whole path |
| `AbortFamilies.CascadeReason` | equipa/abort_controller.py:36-54 | With listeners that add and remove listeners and abort for the same reason or not at all, every live controller of the path not aborted before gets that reason, and the others keep theirs |
| `AbortFamilies.ASiblingMaySayTheReason` | equipa/abort_controller.py:49-54 | A listener of the first child that aborts the second gives it its own reason: parent and second child agree exactly if the two reasons do |
| `AbortControllers.Fire` | equipa/abort_controller.py:49-54 | Calling one callback, user listener, once-wrapper or propagation, counts as exactly one call, does what it is for, and evolves the heap only in the permitted ways; its exceptions are swallowed |
| `AbortControllers.FireOnce` | equipa/abort_controller.py:113-117 | A once-wrapper calls its callback and then removes itself, unless the callback raised |
| `AbortControllers.FireBare` | equipa/abort_controller.py:133-168 | A user listener runs its body, a link aborts its child if that still exists, the cleanup changes nothing else |
| `AbortControllers.RunAction` | equipa/abort_controller.py:49-54 | What a listener does to a controller has happened when it returns: aborted, listener registered, removed, collected |
| `AbortControllers.NotBare` | equipa/abort_controller.py:155-168 | Removing the bare handler from the parent always finds nothing, because its once-wrapper is what is registered |
| `AbortControllers.AddEventListener` | equipa/abort_controller.py:97-121 | An abort listener is registered, wrapped if once; any other event name changes nothing |
| `AbortControllers.AddCallback` | equipa/abort_controller.py:59-68 | A callback is appended, or, on an aborted controller, called at once, exactly once, the call being counted by the callee |
| `AbortFamilies.WithChildIsOk` | equipa/abort_controller.py:171-218 | A new child fits the hierarchy |
| `AbortFamilies.WithChildRests` | equipa/abort_controller.py:171-218 | A new child disturbs nothing settled, and a live path gains the child at its end |
| `AbortFamilies.MakeChild` | equipa/abort_controller.py:190-218 | The child of an aborted parent is aborted with its reason at once; otherwise the two are linked by one listener each |
| `AbortFamilies.LinkTo` | equipa/abort_controller.py:200-206 | The parent gets one once listener that propagates to the child, and nothing else changes |
| `AbortFamilies.CreateChild` | equipa/abort_controller.py:171-218 | Only the parent, which gains one listener unless it was aborted, and the new child change |
| `AbortFamilies.WithChildKeepsForest` | equipa/abort_controller.py:171-218 | A new child keeps the links a forest in which every child is younger than the controller it was created on |
| `AbortFamilies.ForestIsKept` | equipa/abort_controller.py:36-54 | No abort, listener or collection adds a link, so the forest stays one |
| `AbortFamilies.AncestorsAndSiblingsAreNotBelow` | equipa/abort_controller.py:171-176 | Neither what a controller hangs from nor what hangs beside it is below it |
| `AbortFamilies.BelowIsClosed` | equipa/abort_controller.py:171-218 | The controllers below one, if their listeners touch no others, are closed under everything an abort there can do |
| `AbortFamilies.AbortStaysBelow` | equipa/abort_controller.py:171-176 | Aborting a controller leaves its ancestors, its siblings and everything else not below it exactly as they were |
| `AbortFamilies.LeftoverIsHarmless` | equipa/abort_controller.py:155-168 | The listener left on the parent after the child's own abort changes neither reason when the parent is aborted later, whatever lies below the child |
| `DispatchConfig.GateIsOffIff` | equipa/config.py:183-231 | A fail-closed gate is off exactly for an absent config, or a readable one whose features object omits it or says a spelling of false |
| `DispatchConfig.OtherFlagsReadTheirValueOrDefault` | equipa/config.py:183-231 | Any other flag is its valid value in a usable config and its default otherwise |
| `DispatchConfig.SpellingsAre` | equipa/config.py:127-144 | true and 1, false and 0 read as such in any case and with any space around, as do the numbers 1 and 0; nothing else does |
| `Json.FalsyIff` | equipa/config.py:258-265 | Exactly null, false, zero and the empty string, array and object count as off |
| `Json.PyEqKinds` | equipa/config.py:888-890 | True equals 1 and 1.0, and values of different kinds are never equal, as Python compares entries of two lists |
| `DispatchConfig.TheFileDecides` | equipa/config.py:560-577 | The value of a file beats the default, key by key and flag by flag |
| `DispatchConfig.ReviewOfFile` | equipa/config.py:234-270 | A feature flag said to be off rules the review out; otherwise the command line decides, and without one the file, and without that it is on |
| `DispatchConfig.PartialFeaturesKeepTheOthers` | equipa/config.py:563-568 | Naming some flags in a file leaves the others at their defaults |
| `DispatchConfig.UnusableFileClosesGates` | equipa/config.py:544-556 | An unreadable file, or one that holds no object, reads every fail-closed gate as on |
| `DispatchConfig.Config.Read` | equipa/config.py:531-577 | The loops over keys give the file over the defaults with its features over the default flags |
| `DispatchConfig.Config.TakeKnown` | equipa/config.py:558-561 | The file's value for every default key, nothing else |
| `DispatchConfig.Config.TakeRest` | equipa/config.py:570-573 | Every further key of the file, no existing one changed |
| `DispatchConfig.Config.KeepGate` | equipa/config.py:453-470 | If the host has the gate on and the features are an object, the flag is set to true in place; a features value that is not an object, and every other entry, stays |
| `DispatchConfig.Config.KeepReview` | equipa/config.py:383-401 | If only the host has the review on, the top-level setting and the flag are set to true in place; nothing else changes |
| `DispatchConfig.Config.KeepSection` | equipa/config.py:404-423 | The host's section replaces a missing or empty one in place if the host has isolation on; nothing else changes |
| `DispatchConfig.Config.KeepTranslations` | equipa/config.py:483-528 | The path-translation step in place: host entries, then the surviving own ones, which are recorded |
| `DispatchConfig.Config.KeepList` | equipa/config.py:426-450 | The loop appends the per-run entries the list does not hold yet to the host's, in order |
| `DispatchConfig.Config.KeepHostSettings` | equipa/config.py:361-380 | All steps in the source's order |
| `DispatchConfig.Load` | equipa/config.py:290-323 | Loading a per-run file: read, drop its own record of additions, carry the host's settings unless the host file is missing or the same |
| `DispatchConfig.GateStep` | equipa/config.py:453-470 | After its step a gate is on exactly when one of the two configs has it on; no other flag and not the review reads differently |
| `DispatchConfig.ReviewStep` | equipa/config.py:383-401 | After its step the review is on exactly when one of the two has it on; no other flag reads differently |
| `DispatchConfig.StageReads` | equipa/config.py:361-380 | After every number of carry steps a gate or the review is on exactly when the per-run config has it on, or the host has it on and its step is done |
| `DispatchConfig.CarryReadsAsEither` | equipa/config.py:361-380 | After the whole carry a gate or the review is on exactly when one of the two configs has it on |
| `DispatchConfig.SectionStep` | equipa/config.py:404-423 | The isolation-section step changes how no flag and not the review reads |
| `DispatchConfig.TranslationsStep` | equipa/config.py:483-528 | Nor does the path-translation step |
| `DispatchConfig.ListStep` | equipa/config.py:426-450 | Nor does a trust-list step |
| `DispatchConfig.LayoutStep` | equipa/config.py:378-380 | Nor does the layout step |
| `DispatchConfig.MergeReadsAsEither` | equipa/config.py:290-323 | For every pair of file contents, wrong types and unreadable files included, a gate or the review is on after the merge exactly when it is under the host's file or under the per-run file alone |
| `DispatchConfig.MergeNeverWeakens` | equipa/config.py:297-316 | What is on under the host is on in the merged config, also when both paths name one file |
| `DispatchConfig.LaterStepsKeepIt` | equipa/config.py:361-380 | Whatever is on after one carry step is on after every later one |
| `DispatchConfig.CarryKeepsHostPaths` | equipa/config.py:483-528 | For every pair of configs, a path some usable host entry matches is translated after the carry as under the host |
| `DispatchConfig.MergeKeepsHostPaths` | equipa/config.py:895-923 | Every path a usable host entry matches is translated under the merged config as under the host's alone |
| `DispatchConfig.CarryKeepsScaffoldRoots` | equipa/config.py:866-892 | After the carry the scaffold roots are exactly the usable targets of the host's list |
| `DispatchConfig.MergeKeepsScaffoldRoots` | equipa/config.py:866-892 | The scaffold roots of a merged config are exactly the usable targets of the host's list |
| `DispatchConfig.AppendedAddsOnly` | equipa/config.py:446-450 | The carried list keeps the host's entries first, adds only entries no earlier one equals, and loses none of the per-run file's |
| `DispatchConfig.CarryKeepsTrustLists` | equipa/config.py:426-450 | After the carry the host's trust list is a prefix, the rest are per-run entries that equal none before them, and no per-run entry is lost |
| `DispatchConfig.CarryKeepsIsolationSection` | equipa/config.py:404-423 | The host's isolation section is used exactly when the host has isolation on and settings for it and the per-run file has none of its own; otherwise the per-run file's stays |
| `PathTranslation.LongestFirstSorts` | equipa/config.py:863-863 | The sort is a permutation into descending prefix length |
| `PathTranslation.BestIsLongestAndEarliest` | equipa/config.py:838-863 | The unsorted reference picks the longest match, the earliest of equally long ones, and nothing only if nothing matches |
| `PathTranslation.SortedFirstIsBest` | equipa/config.py:908-919 | The first match of the stably sorted list is that pick |
| `PathTranslation.TranslationIs` | equipa/config.py:895-925 | Character by character: a path that no usable prefix is above stays as it is; any other has the prefix of the longest one, the first of equally long ones, replaced by its target without trailing separators, the rest with its separators unified, the root if nothing is left |
| `PathTranslation.OneEntryTranslates` | equipa/config.py:911-919 | With one usable entry a path is translated exactly when it is the source followed by nothing or by a separator and anything, separators read alike |
| `PathTranslation.HasParentSegmentIff` | equipa/config.py:803-805 | A path has a parent segment exactly when two dots stand in it between separators or the ends |
| `PathTranslation.PaddedEntryIsUsable` | equipa/config.py:808-835 | Space around the two prefixes and separators after the source do not matter |
| `PathTranslation.KeyOfUsable` | equipa/config.py:473-480 | The comparison key of a usable entry is its prefix with separators unified and case folded |
| `PathTranslation.LongerMatchLiesUnder` | equipa/config.py:908-919 | Of two prefixes that match one path by whole segments the longer lies under the shorter |
| `PathTranslation.KeptIsShorter` | equipa/config.py:511-525 | A surviving per-run entry that matches a path the host maps is shorter than every host entry matching it |
| `PathTranslation.HostPathsKeepTheirTarget` | equipa/config.py:483-528 | A per-run list cannot re-point a path the host maps |
| `PathTranslation.OwnPathsAreAdded` | equipa/config.py:511-527 | A path the host does not map is translated as the surviving per-run entries say |
| `PathTranslation.Kept` | equipa/config.py:511-525 | The surviving entries are exactly the per-run file's own that are not under a prefix the host maps |
| `PathTranslation.EqualEntriesSameKey` | equipa/config.py:518-518 | Entries Python calls equal have the same key |
| `PathTranslation.RemovedHostEntryIsUnusable` | equipa/config.py:889-890 | A host entry dropped because an added one equals it was unusable anyway |
| `PathTranslation.ScaffoldRootsAreTheHosts` | equipa/config.py:866-892 | Removing the recorded additions leaves exactly the host's usable targets |
| `PathTranslation.TranslationStaysUnderItsTarget` | equipa/config.py:895-919 | A translated path lies under the winning target |
| `PathTranslation.TranslationKeepsPathsApart` | equipa/config.py:913-919 | Two paths under one prefix translate alike exactly if they are one path with its separators unified, or the bare prefix and the prefix with a separator, mapped to the root |
| `PathTranslation.TranslationAddsNoParentSegment` | equipa/config.py:803-835 | Whatever the configuration holds, a '..' segment of the result was in the path |
| `RetryLoop.BackoffDoublesUpToItsCap` | equipa/agent_runner.py:256-276 | Delays double from half a second and are flat at the cap from the seventh attempt on |
| `RetryLoop.DelaysAreBounded` | equipa/agent_runner.py:256-276 | Every delay is between half a second and a quarter over its cap, so the six-hour cap of a persistent delay is never met; math.pow overflows exactly after attempt 1024 |
| `RetryLoop.SleepWithHeartbeats` | equipa/agent_runner.py:2999-3010 | The chunks sum exactly to the delay, each at most 30 seconds, all but the last exactly that |
| `RetryLoop.TrailingIsTheRun` | equipa/agent_runner.py:2963-2969 | The counter of consecutive 529 errors is the length of the run that ends the failures |
| `RetryLoop.RunAgent` | equipa/agent_runner.py:2748-3032 | The loop launches, sleeps and exits as the declarative verdict on the stream of failures says, and stops at the first launch due after an abort |
| `RetryLoop.RunAgentStreaming` | equipa/agent_runner.py:4054-4209 | The streaming loop does, with its paralysis exit |
| `RetryLoop.LaunchesAreBounded` | equipa/agent_runner.py:3012-3020 | A run launches at most max(1, max_retries) agents, plus ceiling - 1 in persistent mode |
| `RetryLoop.BoundIsReached` | equipa/agent_runner.py:2979-3020 | For all budgets that never overflow, some stream does launch that many |
| `RetryLoop.UnclassifiedEndsTheRun` | equipa/agent_runner.py:2971-2974 | An error that is neither 529, rate limit nor transient is never retried: the run ends with the first one |
| `RetryLoop.CapacityRunsToTheCeiling` | equipa/agent_runner.py:2976-2984 | In persistent mode a sustained 529 or rate limit launches exactly ceiling agents, however many plain retries are allowed |
| `RetryLoop.OthersRunToMaxRetries` | equipa/agent_runner.py:3014-3023 | Without it, and for any other transient error, a sustained failure launches exactly max(1, max_retries) agents |
| `RetryLoop.BudgetsHaveRoom` | equipa/agent_runner.py:2979-3020 | However many attempts were retried, neither budget is used up |
| `RetryLoop.SleepsAreBounded` | equipa/agent_runner.py:2979-3032 | Total sleep is at most 40 s a plain retry and 375 s a persistent one |
| `RetryLoop.TotalSleepIsBounded` | equipa/agent_runner.py:2979-3032 | So at most 40(max_retries - 1) + 375(ceiling - 1) seconds |
| `RetryLoop.SameDecision` | equipa/agent_runner.py:4121-4209 | Without a paralysis kill both loops decide alike after every attempt |
| `RetryLoop.SameRun` | equipa/agent_runner.py:4121-4209 | So they launch as often, exit alike and sleep as long |
| `RetryLoop.OverloadedIff` | equipa/agent_runner.py:367-442 | The overloaded outcome is reported exactly when the last failure was a 529 and its budget ran out, with the trailing run as its counter |
| `RetryLoop.NeverRaisesIff` | equipa/agent_runner.py:274-274 | No stream of failures makes math.pow raise exactly when neither budget exceeds 1025 |
| `Watchdog.FinalWarningComesBeforeTheKillIff` | equipa/agent_runner.py:3098-3125 | The warning never comes after the final warning, and the final warning comes no later than the kill exactly when the lowered kill threshold stays at 20 or more |
| `Watchdog.TheSixthRetryIsKilledFirst` | equipa/agent_runner.py:3098-3125 | On the sixth retry the default budget kills at 19 turns, one before the final warning |
| `Watchdog.ThresholdsAreOrdered` | equipa/agent_runner.py:3098-3125 | warn <= final warning <= kill <= 93 for every budget, scale in [1, 3] and up to five retries |
| `Watchdog.ThresholdsAtTheEnds` | equipa/agent_runner.py:3098-3125 | The default budget warns after 12 turns, finally after 20 and kills after 25; the largest after 41, 65 and 93 |
| `Watchdog.Escalate` | equipa/agent_runner.py:3394-3445 | A message without a change is counted and recorded; the retry gate on the first turn and the fast escalation give the final warning, each at most once |
| `Watchdog.Enforce` | equipa/agent_runner.py:3448-3572 | The post-warning check, the warnings and the kills, in the source's order of precedence |
| `Watchdog.RatioIsHigh` | equipa/agent_runner.py:3544-3558 | The ratio test is true exactly when three quarters of the recorded calls count |
| `Watchdog.ReadBlocks` | equipa/agent_runner.py:3279-3384 | The blocks of a message are counted as turns, and a change in any of them is noticed |
| `Watchdog.OnText` | equipa/agent_runner.py:3590-3616 | A text-only message is counted, ends a run that must write, and ends a monologue |
| `Watchdog.OnToolCalls` | equipa/agent_runner.py:3389-3589 | A message with calls resets or raises the counters, for exempt roles only the text counter |
| `Watchdog.OnAssistant` | equipa/agent_runner.py:3276-3622 | One assistant message: other detectors first, then its blocks, then either the text rules or the call rules |
| `Watchdog.Monitor` | equipa/agent_runner.py:3235-3630 | The loop stops at the first message that gives a reason, and not before |
| `Watchdog.LiveRunIsInBounds` | equipa/agent_runner.py:3389-3572 | While the stream of a non-exempt role goes on, turns without a change stay below the kill threshold, and post-warning reads are at most one and none unless the agent must write |
| `Watchdog.IdleStretchEnds` | equipa/agent_runner.py:3560-3622 | An agent that stops changing files is stopped: fewer than kill messages with calls and, past the first turns, fewer than three times as many messages go by |
| `Watchdog.WritingResets` | equipa/agent_runner.py:3337-3338 | A message with an Edit, Write or NotebookEdit call starts the count of turns without a change anew and takes back the order to write |
| `Watchdog.WritersAreNotStopped` | equipa/agent_runner.py:3337-3338 | An agent that uses one of these tools in every kill messages in a row is never stopped for changing no file |
| `Watchdog.TextsAreFew` | equipa/monitoring.py:145-164 | Past the first turns at most two text-only messages follow one another |
| `Watchdog.AfterTheFinalWarning` | equipa/agent_runner.py:3475-3512 | Once told to write, the agent is stopped at its first text-only message and its second message with calls, unless it writes in between |
| `Watchdog.ReadOnlyRunEnds` | equipa/agent_runner.py:3428-3445 | A run read-only from the start has at most int(12 * scale) messages that do not end it, whatever git reports in between |
| `Watchdog.CountedIff` | equipa/monitoring.py:485-490 | A recorded call counts for the reading ratio exactly when the tool's own name begins with Read:, Grep:, Glob: or Agent:, because signatures separate the name by a bar |
| `Watchdog.ReadersNeverTripTheRatio` | equipa/agent_runner.py:3542-3558 | So the reading-ratio kill, meant for relapsing readers, never stops a run whose tool names hold no colon |
| `Watchdog.RelapseRunsToTheKill` | equipa/agent_runner.py:3436-3445 | The final warning is given once: an agent that wrote after it and then only reads is stopped exactly at the kill threshold |
| `StopSignal.Installed` | equipa/agent_runner.py:2399-2408 | After installation no stop signal has the default disposition, and a disposition is changed only to our handler |
| `StopSignal.Process.RemoveLive` | equipa/agent_runner.py:2539-2565 | A cleanup removes exactly this process's registered directories, or none if its agents cannot be stopped; a forked child removes none of its parent's |
| `StopSignal.Process.Handle` | equipa/agent_runner.py:2427-2446 | During a creation our handler only records the signal; otherwise the process dies, raises or goes on as the disposition says, and before it dies or raises exactly its own registered directories are removed, or none if it is to die and its agents cannot be stopped |
| `StopSignal.Process.DuringCreation` | equipa/agent_runner.py:2427-2446 | Any signals between two statements of the creation leave directories alone and record the last one of ours |
| `StopSignal.Process.Between` | equipa/agent_runner.py:2427-2446 | Elsewhere at most one cleanup runs, before control goes elsewhere, and what it removes is what the signal that stops the process says |
| `StopSignal.Process.Install` | equipa/agent_runner.py:2361-2396 | Both signals are taken over where the rules allow it; a signal at any instant of it has exactly the effect of the dispositions in force then |
| `StopSignal.Process.Make` | equipa/agent_runner.py:2345-2351 | mkdtemp, the checks and the registration, interrupted anywhere: the directory is registered, removed, or stranded, and exactly when |
| `StopSignal.Process.MakeChecked` | equipa/cli_isolation.py:280-291 | From mkdtemp on: a directory that fails the checks is removed unless an exception gets out first |
| `StopSignal.Process.MakeRegistered` | equipa/agent_runner.py:2351-2351 | The registration and what is recorded around it |
| `StopSignal.Process.TakeRecord` | equipa/agent_runner.py:2354-2357 | From reading the record on: it is cleared, and the signal sent again, exactly when nothing ends the process or raises before |
| `StopSignal.Process.Finish` | equipa/agent_runner.py:2352-2357 | The finally block sends the recorded signal again exactly when none of its instants ends the process or raises; the directories, the registrations and the log afterwards are exactly those its instants leave |
| `StopSignal.Process.Create` | equipa/agent_runner.py:2336-2358 | For every instant at which signals may arrive, the whole new state: how control goes on, what is registered, removed or stranded, which signal is sent again, after the registration, and which stays recorded; a cleanup sees no unregistered directory and none is left behind unless an exception got out while it was being made |
| `StopSignal.GoesOnWithADirectory` | equipa/agent_runner.py:2351-2358 | A creation that goes on has its directory, registered and on disk, and no cleanup ran |
| `StopSignal.NeverStrandsIff` | equipa/agent_runner.py:2399-2408 | No timing of signals strands a directory exactly when SIGINT has no Python handler of its own |
| `StopSignal.AllAreResentIff` | equipa/agent_runner.py:2430-2432 | For every timing, each signal recorded during a creation is sent again exactly when none was recorded, or all were the same and nothing cuts the finally short |
| `StopSignal.NeverLosesIff` | equipa/agent_runner.py:2361-2396 | No timing loses a recorded signal (not sent again, not kept, not what the process reacts to instead) exactly when not both SIGTERM has our handler and SIGINT ours or Python's |
| `StopSignal.ACutSignalIsLost` | equipa/agent_runner.py:2352-2357 | A recorded SIGTERM is lost when a Python SIGINT handler raises between the clearing of the record and the sending |
| `StopSignal.AnEarlierSignalIsLost` | equipa/agent_runner.py:2430-2432 | With our handler on both, SIGTERM followed by SIGINT: SIGTERM is lost |
| `StopSignal.OwnedSignalsAreHeard` | equipa/agent_runner.py:2427-2432 | A signal with our handler is recorded if no exception gets out |
| `UvxOptions.ParseCluster` | equipa/agent_runner.py:1553-1567 | The loop over the letters reads flags up to the first option letter, whose value is the rest, or the next argument, or refuses an unknown letter |
| `UvxOptions.ReadArgument` | equipa/agent_runner.py:1543-1567 | One argument, long or short, or the error naming it |
| `UvxOptions.OptionsBeforeTool` | equipa/agent_runner.py:1524-1569 | The loop terminates and returns the parse of the arguments, or its error |
| `UvxOptions.LongSpellings` | equipa/agent_runner.py:1543-1552 | --option value and --option=value parse alike, for every value |
| `UvxOptions.ShortSpellings` | equipa/agent_runner.py:1553-1567 | -o value and -o=value parse as the long option, alone or after a flag cluster, for every value; -ovalue for every value that is not empty and does not begin with = |
| `UvxOptions.GluedIsAmbiguous` | equipa/agent_runner.py:1562-1563 | A glued value that begins with = loses it |
| `UvxOptions.LongOptionsAre` | equipa/agent_runner.py:1542-1551 | A long option in neither list is refused, alone and with a value; so is a flag with a value; a value option with nothing after it has none |
| `UvxOptions.UnknownLetterIsRefused` | equipa/agent_runner.py:1555-1560 | A short letter in neither list is refused, after any flags |
| `UvxOptions.ReadingEndsIff` | equipa/agent_runner.py:1540-1541 | Reading ends at once, with nothing read, exactly at an argument without a leading dash, at - and at -- |
| `UvxOptions.ReadingGoesUpTo` | equipa/agent_runner.py:1537-1569 | Reading goes on up to the tool name, - or --, up to the argument that is refused, which the error names, or to the end |
| `UvxOptions.SplittingKeepsTheParseIff` | equipa/agent_runner.py:1543-1567 | Splitting a cluster after some flags keeps the outcome exactly when the rest does not begin with a dash, or the arguments from the long option it becomes are refused too |
| `UvxTable.SplittingADashChangesTheParse` | equipa/agent_runner.py:1543-1567 | -q-help is refused, -q --help is not |
| `UvxOptions.ToolArgumentsAreIrrelevant` | equipa/agent_runner.py:1541-1542 | Nothing after the argument where reading ends affects the parse |
| `UvxTable.UvxIsConsistent` | equipa/agent_runner.py:1349-1377 | uvx's table: no option is both a flag and a value option, no name holds =, every alias names a value option |
| `LessonMigration.Newest` | db_migrate.py:615-625 | The first row of the ordered query beats every other: newest stamp, NULL stamps last, ties by the larger id |
| `LessonMigration.NewerIff` | db_migrate.py:622-627 | The order of the query: the later of updated_at, or created_at where that is NULL, comes first, rows without a date last, ties by the larger id |
| `LessonMigration.TheLatestStays` | db_migrate.py:630-651 | Of a group exactly the row touched last stays active |
| `LessonMigration.TwoDuplicates` | db_migrate.py:619-651 | Of two duplicates the one touched last gets the sum of both counts, a NULL adding 1, and the other is deactivated |
| `LessonMigration.Lessons.Fold` | db_migrate.py:637-644 | The first UPDATE adds the total to the keeper, NULL counted as 1, stamps it, and touches no other row |
| `LessonMigration.Lessons.Deactivate` | db_migrate.py:645-648 | The second UPDATE deactivates exactly the listed rows |
| `LessonMigration.SumLosers` | db_migrate.py:629-631 | The sum of the losers' counts, NULL as 1 |
| `LessonMigration.Lessons.FoldGroup` | db_migrate.py:612-648 | One group: the first row of the ordered query takes the sum of the others, which are deactivated; a group of one is left alone |
| `LessonMigration.Lessons.Migrate` | db_migrate.py:575-652 | The loop over duplicate groups, in any order, makes the planned table; without the table nothing happens |
| `LessonMigration.GroupRows` | db_migrate.py:612-648 | Folding one group makes the planned rows of it and leaves all others |
| `LessonMigration.CountsAreConserved` | db_migrate.py:606-649 | The total of COALESCE(times_seen, 1) over a group's active rows is unchanged, for every group, NULLs included |
| `LessonMigration.OneActiveRowStays` | db_migrate.py:606-649 | Exactly the newest row of a group with active rows stays active |
| `LessonMigration.OtherRowsAreUntouched` | db_migrate.py:606-649 | Inactive rows and groups without duplicates are untouched, no row appears, disappears or changes its group |
| `LessonMigration.IndexCanBeCreated` | db_migrate.py:651-654 | Afterwards no two active rows share signature and source |
| `LessonMigration.NoDuplicatesNoChange` | db_migrate.py:606-649 | A table without duplicates is left as it is |
| `LessonMigration.SecondRunIsANoOp` | db_migrate.py:575-657 | Running the migration again changes nothing |
| `MigrationRunner.Database.Run` | db_migrate.py:885-974 | One run, with failures anywhere: which migrations ran, what is stamped, what is logged and what is returned; it starts from the stamp, or without one from the tables, and succeeds if every step does |
| `MigrationRunner.Database.RunAgain` | db_migrate.py:885-974 | Over any runs and failures migrations run in order, none left out, only the last may be repeated, and success ends at the current version |
| `PhraseScan.Search` | lesson_sanitizer.py:1168-1174 | The scan returns the leftmost phrase start in instruction position, None exactly when there is none, judging every start up to it exactly once |
| `PhraseScan.SearchHeaders` | lesson_sanitizer.py:1198-1207 | The same for rule headers, whose tails together are shorter than the text if no phrase starts inside its own match |
| `PhraseScan.HeaderOpensIff` | lesson_sanitizer.py:1198-1208 | A match is a header with an unreported lead, and after a report exactly when the judge for that kind of report says so of the text up to the next match |
| `PhraseScan.TailsAreDisjoint` | lesson_sanitizer.py:1185-1188 | The tails of two matches have no position in common |
| `PhraseScan.TailsAreLinear` | lesson_sanitizer.py:1185-1188 | So their total length is at most the text's |
| `PhraseScan.NestedTailsOverlap` | lesson_sanitizer.py:1185-1188 | A phrase that starts inside its own matches reads nine characters of a six-character text |
| `Sanitizer.NeutralizedIsClean` | lesson_sanitizer.py:1479-1492 | The output holds no control, invisible or angle-like character, whatever the input |
| `Sanitizer.FixedPointIffClean` | lesson_sanitizer.py:1479-1492 | Exactly the clean texts are left as they are |
| `Sanitizer.NeutralizeIsIdempotent` | lesson_sanitizer.py:1482-1484 | Neutralizing twice is neutralizing once |
| `Sanitizer.RemovalExposesASequence` | lesson_sanitizer.py:66-66 | Removing one escape sequence can put another together, which the control-character pass breaks |
| `Sanitizer.SequencesGo` | lesson_sanitizer.py:1488-1488 | Of plain text, an escape sequence and more text the sequence goes whole and the rest stays |
| `Sanitizer.ClassesAre` | lesson_sanitizer.py:66-66 | The parameter, intermediate and final characters of an escape sequence, spelled out |
| `Sanitizer.EscapingIsReversibleIff` | lesson_sanitizer.py:1471-1476 | Escaping loses nothing but which angle-like character it was, exactly for the texts that do not spell &lt; or &gt; themselves |
| `Sanitizer.CapHoldsIff` | lesson_sanitizer.py:1569-1579 | The capped input exceeds 64,000 characters exactly when it was cut and 10^21 or more were dropped |
| `Sanitizer.SanitizedIsAFixedPoint` | lesson_sanitizer.py:1582-1608 | Sanitized text is clean and neutralizing it again changes nothing |
| `Sanitizer.SanitizedIsEmptyIff` | lesson_sanitizer.py:1598-1608 | The result is empty exactly when the text is, when it looks like an injection, or when nothing but space is left of it |
| `Sanitizer.SanitizedIsUnchangedIff` | lesson_sanitizer.py:1598-1608 | Exactly clean text within the cap, without space around it and without an injection, comes back whole |
| `Sanitizer.LimitKeepsTheFixedPoint` | lesson_sanitizer.py:1611-1635 | A length cap keeps that, whatever the cap |
| `Sanitizer.LimitHoldsIff` | lesson_sanitizer.py:1628-1634 | The result is within a cap exactly when the cap is at least 3 or nothing is cut; then it is the longest prefix that fits and the dots; a smaller cap cuts from the end, and 0 or None cuts nothing |
| `CliIsolation.ReadSources` | equipa/cli_isolation.py:93-105 | The loop collects every value of --setting-sources before --, in both spellings, none for a flag without one |
| `CliIsolation.ReadMcpConfigs` | equipa/cli_isolation.py:108-127 | The nested loops collect what a variadic --mcp-config takes |
| `CliIsolation.TakeValues` | equipa/cli_isolation.py:124-126 | The inner loop takes the arguments up to the next option |
| `CliIsolation.ReadMcpOption` | equipa/cli_isolation.py:119-126 | One turn of the outer loop takes what its option takes and moves on |
| `CliIsolation.SourceSpellings` | equipa/cli_isolation.py:98-104 | Both spellings of a setting source give its value |
| `CliIsolation.McpSpellings` | equipa/cli_isolation.py:111-126 | Both spellings of an MCP config give its value, the separate one unless it looks like an option |
| `CliIsolation.McpConfigsAre` | equipa/cli_isolation.py:111-127 | --mcp-config takes every argument up to the next option, the joined spelling one value, and any other argument is skipped |
| `CliIsolation.Isolate` | equipa/cli_isolation.py:130-168 | Refuses exactly when some setting source is not the empty string, otherwise inserts what is missing where the options end |
| `CliIsolation.IsolatedArgv` | equipa/cli_isolation.py:130-178 | The result satisfies has_claude_cli_isolation and the same MCP configs are read from it |
| `CliIsolation.NothingIsLost` | equipa/cli_isolation.py:164-167 | Everything before the insertion and everything from -- on is unchanged and in place |
| `CliIsolation.UnchangedIffIsolated` | equipa/cli_isolation.py:171-178 | Nothing is added exactly when the argv is isolated already |
| `CliIsolation.IsolatingTwiceIsIsolatingOnce` | equipa/cli_isolation.py:130-168 | Applying it again changes nothing |
| `StaleScan.List` | equipa/cli_isolation.py:353-368 | Listing one directory counts its entries, takes their times and stacks its subdirectories, or stops at a bound |
| `StaleScan.NewestMtime` | equipa/cli_isolation.py:336-371 | The walk returns the newest time of the tree, or infinity exactly when the tree exceeds a bound |
| `StaleScan.NewestIsNewest` | equipa/cli_isolation.py:336-371 | That time is at least the top's and that of everything below |
| `StaleScan.NewestIsSomeones` | equipa/cli_isolation.py:336-371 | And it is the top's or that of something below |
| `Redaction.RedactedHasNoSecrets` | equipa/config_versions.py:78-91 | At every depth a secret key holds the sentinel |
| `Redaction.SecretKeysAre` | equipa/config_versions.py:54-75 | Exactly api_key and the keys with one of the three endings are secret, in any case |
| `Redaction.UnchangedIffNoSecrets` | equipa/config_versions.py:78-91 | Exactly the values without secrets are left as they are |
| `Redaction.RedactIsIdempotent` | equipa/config_versions.py:78-91 | Redacting twice is redacting once |
| `Redaction.OnlySecretsChange` | equipa/config_versions.py:78-91 | Everything not under a secret key is kept |
| `ConfigBlob.LineEndsReadAlike` | equipa/config_versions.py:222-222 | The three line endings of a text file read alike |
| `ConfigBlob.SomeCodecRoundTrips` | equipa/config_versions.py:94-115 | What is asked of the JSON codec, that redacted values it parsed are read back from what it prints, is met by some codec that redacts something |
| `ConfigBlob.RestoredBlobIsItself` | equipa/config_versions.py:94-115 | A blob written back to its file has itself as its blob: redacted, malformed JSON or plain text |
| `ConfigBlob.StoredJsonHasNoSecrets` | equipa/config_versions.py:94-115 | A JSON file that parses is stored without secrets and otherwise unchanged |
| `ConfigVersions.ShasAreThoseOfFiles` | equipa/config_versions.py:139-150 | The aggregate over a list of different paths depends only on the stored files, not on their order |
| `ConfigVersions.ChainGrows` | equipa/config_versions.py:262-302 | A version that names its project's latest as parent and has another hash continues the chain |
| `ConfigVersions.ParentIsThePreviousVersion` | equipa/config_versions.py:265-302 | Of two versions of a project with none between, the later names the earlier as parent and has a different hash |
| `ConfigVersions.SnapshotKeepsTheStore` | equipa/config_versions.py:235-302 | Every snapshot, failed or deduplicated ones included, keeps every chain and stored version sound |
| `ConfigVersions.RestoredVersionIsItself` | equipa/config_versions.py:411-480 | Restored files, listed in any order, give the version's blobs and its aggregate hash again |
| `ConfigVersions.Service.BuildEntries` | equipa/config_versions.py:212-230 | The entries in order, or the first file's error |
| `ConfigVersions.Service.Snapshot` | equipa/config_versions.py:235-302 | A new version, the latest one if its hash is the same, or an error that stores nothing |
| `ConfigVersions.Service.DirtyFiles` | equipa/config_versions.py:382-408 | Exactly the files that are not on disk as the latest version holds them |
| `ConfigVersions.Service.WriteFiles` | equipa/config_versions.py:476-478 | The loop writes every file of the version and no other |
| `ConfigVersions.Service.Restore` | equipa/config_versions.py:446-480 | Succeeds exactly when nothing is in the way and the snapshot before it succeeds; that snapshot is stored whenever nothing is in the way, and only then are the version's files written |
| `ConfigVersions.SnapshotKeepsTheFiles` | equipa/config_versions.py:265-302 | After a snapshot that succeeds the project's latest version has the hash of the files as they are on disk, and a new one is these files, path by path |
| `ConfigVersions.SnapshotRefusesIff` | equipa/config_versions.py:256-265 | A snapshot is refused exactly for a project number that is not positive, a source that is none of the four, no files, or a file outside the repository |
| `ConfigVersions.StoredVersionIsFound` | equipa/config_versions.py:432-439 | With growing ids every stored version is found by its id |
| `ConfigVersions.SameHashSameFiles` | equipa/config_versions.py:268-271 | Without a collision of hashes a version that has the hash of these files is these files, so nothing is lost by storing none |
| `ConfigVersions.EditedFileRefusesIff` | equipa/config_versions.py:382-408 | Without force a rollback is refused exactly when some file it would write is missing, is not held by the latest version, or differs from what that holds |
| `ConfigVersions.Service.Rollback` | equipa/config_versions.py:411-480 | Succeeds exactly for a known version on a dry run, or without dirty files (or with force) when the snapshot of the default files succeeds; restores exactly the version's files, and what was on disk is kept: the project's latest version is these default files, or was there before and has their hash; on an error and on a dry run no file is touched |

## Left out

- Launcher: one walk is one atomic snapshot; the race inside a non-atomic walk over `/proc` is not modelled.
- Launcher: the check-then-kill fallback without pidfds (equipa/agent_launcher.py:333-342) and process-group ownership have unavoidable windows and are not modelled.
- Launcher: processes the CLI asks others to start (systemd, cron, at) are outside every process tree.
- Launcher: a CLI that changes its user, so that signalling it is not permitted, is not modelled; neither is the isolated mode with its workspace hand-off, nor PR_SET_PDEATHSIG.
- Supervisor.Host.TimedWait: a wait takes at least one millisecond, which gives the loops a termination measure the source leaves to the clock.
- AbortFamilies.CreateChild: listeners that create child controllers while they run are not modelled; children are created between aborts.
- AbortControllers.Collect: an aborted controller is never collected: while it aborts its own call holds it, and afterwards nobody can tell.
- DispatchConfig.Load: the per-run and host files are read once each; sharing of mutable defaults between configs, and the messages logged, are not modelled.
- DispatchConfig.ReviewOn: the command-line value is present or absent; other attribute types of the parsed arguments are not modelled.
- PathTranslation.Translate: a POSIX host; the warning for untranslated drive-letter paths is not modelled.
- Json: numbers are integers and reals; NaN, infinities, lone surrogates and recursion limits of the parser are not part of the model.
- RetryLoop.RunAgent: how an attempt's text is classified (regular expressions), the subprocess, timeouts and messages; delays are reals, so float rounding of the jitter is not modelled. The ceiling is taken as already validated to be positive.
- Watchdog: the stuck-phrase, repeated-operation, Bash-security and git detectors are inputs that may stop a run at any message; budget messages, compaction signals and checkpoints are not modelled; thresholds use reals, so the float rounding of int(0.7 * kill) is not modelled.
- StopSignal: only the main thread; the merge shield that wraps restored handlers, the SIGALRM watchdog of a hanging cleanup and the weak references that remove a directory at the end of a run are not modelled. A handler runs to its end, since a second stop signal returns at once while it does.
- UvxOptions: the check of the option values (locations, trusted URLs) after parsing.
- LessonMigration: columns the migration never reads; 64-bit overflow of times_seen; a failure in the middle of the transaction; row ids are natural numbers.
- MigrationRunner.Database.Run: what the other migrations do, the backup file and its question; a failure to create the audit table.
- PhraseScan: the phrases, the word lists and the judges of leads and tails; they are arbitrary functions here.
- Sanitizer: the injection patterns and their folding, which are an arbitrary predicate, and neutralize_boundaries.
- CliIsolation: the environment of a CLI run, the trusted shell, and the creation and removal of directories beyond what StopSignal models.
- StaleScan.NewestMtime: a directory whose listing fails half-way counts as one without entries.
- ConfigVersions: diff, list_versions, symbolic links, time stamps and commit messages; a write that fails half-way through a rollback.
- ConfigVersions.Service.Rollback: full reversibility is not claimed, because secrets are redacted in the stored blobs and the snapshot before a rollback covers the default files only.
- Checkpoints, ForgeSmith, the classifier, MCP health, the Ollama loop, prompts, the setup wizard and the command line: not modelled; they are input and output, aggregation in SQL, or easy.
