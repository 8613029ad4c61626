# devbox: a verified model

devbox drives a shared development machine from a developer's own computer. This project
models the parts of it in which a mistake loses work or runs something twice, and proves what
those parts are for.

- **Text that crosses a boundary.** Shell quoting of command lines (`ShellQuoting`), the YAML
  emitter and a reader for what it emits (`YamlScalars`, `YamlEmitter`, `YamlReader`,
  `YamlRoundTrip`), the rewriting of paths in transcripts (`Transcript`), and the textual
  insertion of a project into a configuration (`Sections`, `AddProject`).
- **Lazy mounts.** The lock file (`MountLock`), and reserve, spawn, commit and verify with the
  bookkeeping of `bridges.json` (`Bridges`, `MountWorld`, `Mounts`). Every step of a command can
  be its last, and between any two steps processes exit, start and reuse pids.
- **Model presets.** The transactional controller with a failure at any runtime call
  (`PresetModel`, `PresetController`), the promise chain that serialises its calls
  (`PresetQueue`) and the controller's operations behind it, cut at their awaits
  (`PresetsInQueue`).
- **App configs.** The decision table and the file operations of link and unlink
  (`AppConfigPlan`, `MarkedBlocks`, `AppConfigFiles`, `AppConfigRun`).
- **Apply.** Nested locks around a publish of two files that is not atomic (`LockedCommands`,
  `ConcurrentApplies`).
- **Reapers.** The grace clock that three scripts share (`GraceClock`), the choice of a runaway
  (`RunawayGuard`), the proof an orphaned browser needs (`OrphanBrowsers`), session roots in a
  process tree (`PaseoSessions`).
- **Specifications.** Port allocation (`ClientPorts`), references, port claims and defaults
  (`SpecModel`, `PortClaims`, `Resolution`).

Code that assigns step by step is a method, proved against a function; what the code is for is
proved about that function. `Text.dfy` holds the string operations the components share.

## Where the code does less than it says

Each of these is stated with the exact condition under which the promise does hold.

- The emitter leaves `-`, `@…`, `.inf` and `.nan` and their kin unquoted, writes control
  characters and line breaks raw, and writes nothing for an empty list or record at the top; a
  top-level string `---` or `...` reads as a document marker (`YamlRoundTrip.RoundTrip`).
- A contender that is interrupted between inspecting a dead lock and unlinking it can remove a
  lock that has been taken meanwhile (`MountLock.CarelessReachable`, `MountLock.CarelessIff`).
- `devbox mount up` is not idempotent for a label that is listed twice: neither the list of
  entries nor the health report is read again within the loop, so the second round starts a
  second pair. The `devbox.yml` of this path is unvalidated (clients/devbox/src/config.ts:149);
  clients/devbox/src/spec/validate.ts:893-901, which refuses such a list, is not upstream of it
  (`Mounts.SecondPairIff`, `Mounts.MountTwice`, `Mounts.RepeatedLabel`).
- A reset whose record cannot be appended, a resumed session whose preset cannot be taken over
  and an apply whose roles cannot be rolled back leave the controller, the runtime and the log
  disagreeing (`PresetModel.OpInStep`).
- Linking a client path whose own name is excluded keeps its content aside but not in the
  store, so unlinking does not bring it back (`AppConfigFiles.TextThereAndBack`).
- The copies of link and unlink turn a relative link inside a directory into an absolute one, so
  the directory does not come back the same (`AppConfigFiles.DirThereAndBack`,
  `AppConfigFiles.RelativeLinkMoves`).
- The client's `ssh` configuration is rewritten in place: stopped inside that write, a text that
  was not put into the store first is lost, and only then (`AppConfigRun.TornLoses`,
  `AppConfigRun.Machine.LinkEntry`).
- A reaper that cannot write its state keeps the old state file, so the grace does not restart,
  unlike its warning says (`GraceClock.BreakRestartsIff`, `GraceClock.UnsavedPassKeepsCredit`).
- Two sessions of one agent can lie one below the other, past processes that are not its own
  (`PaseoSessions.NestedIff`, `PaseoSessions.NestedPastAnother`).
- A second `devbox add` of the same project is only refused when the `- user:` line is indented
  by less than four (`AddProject.SecondAdditionRefused`).
- A default memory space of `none`, or a sole space of that name, is passed on as the name
  `none`, not as no space (`Resolution.SpaceIsDeclared`).

## Model

| member | source | states |
|---|---|---|
| ShellQuoting.ScanQuoted | clients/devbox/src/config.ts:300 | for every string, a POSIX shell reads its quoted form as exactly that string, appended to the word under way |
| ShellQuoting.CommandRoundTrip | clients/devbox/src/config.ts:452 | for every argument list, the shell splits the joined quoted arguments back into that list |
| ShellQuoting.NestedRoundTrip | clients/devbox/src/push.ts:192 | a whole command quoted once more is one word to the first shell and the original arguments to the second |
| ShellQuoting.PushRoundTrip | clients/devbox/src/push.ts:192 | the push pipeline reads as tar on the staging directory piped to ssh with the host and the script byte for byte, whatever they contain |
| ShellQuoting.LineRoundTrip | clients/devbox/src/push.ts:192 | any line of bare words, quoted arguments and pipes is tokenised as meant |
| YamlScalars.ScalarRoundTrip | clients/devbox/src/spec/yaml.ts:19-25 | every null, boolean, integer and preserved string reads back from its text; of any other string already the first physical line is rejected |
| YamlScalars.QuotedWhen | clients/devbox/src/spec/yaml.ts:12-24 | a string is quoted exactly when it is empty, holds a character other than a letter, a digit or one of `_@./+-`, is one of eight words in any case, or looks numeric |
| YamlScalars.MissedFormsAreUnquoted | clients/devbox/src/spec/yaml.ts:22-24 | the forms that do not survive, `-`, `@…`, infinities and not-a-number, are never quoted |
| YamlEmitter.EmitEntries | clients/devbox/src/spec/yaml.ts:27-50 | the loop emits the rendered lines of the record at its indentation, undefined entries dropped |
| YamlEmitter.EmitList | clients/devbox/src/spec/yaml.ts:52-75 | the loop emits the rendered lines of the list at its indentation |
| YamlEmitter.EmitRecordItem | clients/devbox/src/spec/yaml.ts:63-72 | overwriting the first line puts the dash in place of its indentation and leaves the others |
| YamlEmitter.ToYaml | clients/devbox/src/spec/yaml.ts:78-85 | the text is the newline-terminated document of the value, empty for no lines |
| YamlRoundTrip.ItemsRead | clients/devbox/src/spec/yaml.ts:52-75 | a list read by indentation is the list emitted, whatever shallower lines follow, exactly when its strings are preserved |
| YamlRoundTrip.EntriesRead | clients/devbox/src/spec/yaml.ts:27-50 | the same for a record, nested to any depth |
| YamlRoundTrip.HoistRead | clients/devbox/src/spec/yaml.ts:67-71 | a record whose first key was hoisted onto the dash reads back as that record |
| YamlRoundTrip.RoundTrip | clients/devbox/src/spec/yaml.ts:19-85 | for every value with plain keys, reading the document gives the value without its undefined entries if and only if every string in it is preserved and the top is not an empty collection or a document marker |
| Transcript.FirstMatchIsLongest | clients/devbox/src/transcript.ts:58-63 | over a list sorted longest first, the alternative the expression picks is the longest key that matches |
| Transcript.ApplyIsLongestScan | clients/devbox/src/transcript.ts:41-63 | one pass over such a list is the left-to-right scan that replaces the longest key and never rescans output |
| Transcript.OrderIrrelevant | clients/devbox/src/transcript.ts:41-63 | the order of equally long entries does not matter |
| Transcript.PullAfterPush | clients/devbox/src/transcript.ts:26-63 | reversed mappings restore the text where the rewritten text reads unambiguously, and, no replacement being a prefix of another, nowhere else |
| Transcript.PullAfterPushIff | clients/devbox/src/transcript.ts:26-63 | no replacement being a prefix of another, exactly those texts are restored in whose rewriting no replacement begins at a character that was copied |
| Transcript.RewriteJsonl | clients/devbox/src/transcript.ts:66-79 | each non-blank line is rewritten, in order; success exactly when every result is JSON, and the error names one that is not |
| Transcript.JsonlIsOneRewrite | clients/devbox/src/transcript.ts:66-79 | when no key holds a line break, rewriting line by line is one rewrite of the joined records |
| Transcript.JsonlPullAfterPush | clients/devbox/src/transcript.ts:66-79 | a pull sees the records a push wrote and restores them exactly when each is unambiguous |
| Transcript.BuildMappings | clients/devbox/src/transcript.ts:26-49 | refuses exactly the ill-formed maps; the list is sorted longest first and the first mapping for a key is the one that counts |
| Transcript.MapArgMeans | clients/devbox/src/transcript.ts:32-36 | `OLD=NEW` is cut at its first `=` and refused exactly when either part is empty |
| Transcript.HomePrefixMeans | clients/devbox/src/transcript.ts:37-40 | the home of a path is `/Users/` or `/home/` and the segment behind it |
| Transcript.EncodedAt | clients/devbox/src/config.ts:496-502 | letters and digits stay, every other character becomes a dash |
| Transcript.RootWins | clients/devbox/src/transcript.ts:31-47 | the project root goes where it is told to, whatever the other mappings |
| Transcript.DropShadowed | clients/devbox/src/transcript.ts:47-48 | what the filter keeps has distinct keys and the same table in which the first entry wins |
| Transcript.DefaultRoundTrip | clients/devbox/src/transcript.ts:26-49 | with only the two roots, push and pull lists are inverse, and pull after push restores a text if and only if it reads unambiguously |
| Transcript.ReversalInverse | clients/devbox/src/transcript.ts:47-48 | for any list, the first-wins tables of the list and of the list turned round are inverse if and only if each entry is shadowed by an earlier one in both directions or in neither |
| Transcript.BackArgReads | clients/devbox/src/transcript.ts:32-35 | `OLD=NEW` turned round is read as the mapping turned round if and only if NEW holds no `=` |
| Transcript.HomeReversed | clients/devbox/src/pull.ts:99-106 | the home remap is turned round if and only if the client root has no home or the box root lies in the home that push maps to |
| Transcript.PullTurnsPushRound | clients/devbox/src/transcript.ts:26-63 | with options that turn round, explicit maps and home remap included, the lists of push and pull are inverse if and only if each mapping and encoded form is shadowed in both directions or in neither; then a text comes back exactly as in the general law |
| MountLock.UninterruptedRunExcludes | clients/devbox/src/mount-lock.ts:23-65 | in every interleaving of create, write, inspect-and-break, release and crash steps at most one live process is between creating and having removed the lock |
| MountLock.HalfWrittenStays | clients/devbox/src/mount-lock.ts:40-48 | a half-written lock is never broken, its writer dead or alive, and nobody runs an action under it |
| MountLock.CarefulRunExcludes | clients/devbox/src/mount-lock.ts:34-57 | with read, lookup and unlink apart, exclusion holds in every run whose unlinks spare locks in use |
| MountLock.InspectedIsCareful | clients/devbox/src/mount-lock.ts:42-54 | unlinking the very lock that was inspected is such an unlink |
| MountLock.CarelessLoses | clients/devbox/src/mount-lock.ts:54 | any other unlink of a lock in use, its owner yet to run, running or on its way out, can be followed by two holders |
| MountLock.CarelessIff | clients/devbox/src/mount-lock.ts:34-57 | two holders can follow an unlink, with no lock broken after it, if and only if it takes away a lock in use |
| MountLock.CarelessReachable | clients/devbox/src/mount-lock.ts:42-54 | such an unlink is reached by two contenders that find the lock of a dead process |
| MountLock.Machine.Acquire | clients/devbox/src/mount-lock.ts:23-59 | at most two tries among other contenders; success means the file names us and nobody else is in between; with nobody else about, it succeeds exactly when it can write and there is no lock or a written one whose owner it finds dead |
| MountLock.Machine.Release | clients/devbox/src/mount-lock.ts:38-43 | the release closure removes our own lock, the path is free after it, and every other contender's invariant is kept |
| MountWorld.World.WriteBridges | clients/devbox/src/bridge.ts:73-82 | the file is the old list or the new one, and only a list that tracks every live process may be written |
| MountWorld.World.AssessBridgeProcesses | clients/devbox/src/bridge.ts:109-122 | live means both processes were there, stale that one was seen not to be; a pair of which one had gone is stale, and no committed pair unknown, unless a lookup fails; without both identities it is unknown |
| MountWorld.World.StopOwnedBridgeProcesses | clients/devbox/src/bridge.ts:124-145 | safe and silent means both recorded processes are gone; anything else has its reason: a failed lookup, a signal sent or refused, or a pid that belongs to another process |
| MountWorld.World.ReconcileBridges | clients/devbox/src/bridge.ts:148-163 | an entry leaves the file only after both of its processes were seen gone, wherever the pass is cut off, and nothing is added; an entry of which a process had gone stays only when a lookup of its pids failed, a signal found a process, or another process had the pid |
| MountWorld.World.Spawn | clients/devbox/src/mount.ts:366-369 | a process is started under a reservation for its mount, whatever else runs, and is tracked from the start |
| Bridges.SpawnKeepsInv | clients/devbox/src/mount.ts:353-369 | a spawn under a reservation leaves every live process tracked |
| Mounts.HealthMeans | clients/devbox/src/mount.ts:80-119 | healthy when ours, mounted and reachable; failed when it can be started or recovered; blocked when foreign or in use; unknown where evidence is missing; and the reason given |
| Mounts.StopExactProcess | clients/devbox/src/mount.ts:473-483 | success means that identity is no longer under that pid; failure that it was not there, could not be asked after or signalled, or was signalled and stayed |
| Mounts.WaitForBridgeExit | clients/devbox/src/mount.ts:461-471 | success means both processes of the entry are gone; failure that one was still there or could not be asked after |
| Mounts.RemoveBridgeEntry | clients/devbox/src/mount.ts:485-489 | may be called only when the other entries cover every live process; keeps all of them |
| Mounts.ReplaceBridgeEntry | clients/devbox/src/mount.ts:491-499 | on success the committed entry is in the file, and every entry but the one it replaces with it |
| Mounts.Unwind | clients/devbox/src/mount.ts:427-446 | after a failed startup the entry goes only with both of its processes; all others stay |
| Mounts.Launch | clients/devbox/src/mount.ts:365-446 | from the first spawn to readiness or any failure, every live process stays tracked and other entries untouched, and a mount without a live process ends with one pair at most; on completion both processes of the committed entry were there |
| Mounts.MountUp | clients/devbox/src/mount.ts:309-449 | for any list of labels: old entries are only missing when both their processes have gone, and nothing is started for a mount one of them still speaks for; of each mount at most, and on completion exactly, as many pairs are started as its label is listed, if it had no entry and was proved absent, and of no other mount any; no mount listed once gets a second one; on completion each mount to be started has come up with both processes, and an entry that kept it from starting although a process had gone has its reason; undisturbed it does not fail |
| Mounts.SecondPairIff | clients/devbox/src/mount.ts:318-330 | a second pair for some mount is possible if and only if a label is listed twice |
| Mounts.MountTwice | clients/devbox/src/mount.ts:314-399 | a completed command with a label listed twice, its mount without an entry and proved absent, has started exactly two processes of each role |
| Mounts.RepeatedLabel | clients/devbox/src/mount.ts:314-326 | two live pairs of that mount, each tracked, meet all that such a command promises |
| Mounts.RunAll | clients/devbox/src/mount.ts:304-449 | the same over every run of mount-up and status commands, each of which may be killed anywhere; when no command lists a label twice, no mount has two live pairs |
| PresetModel.LatestPresetState | clients/devbox/src/omp-model-presets/core.ts:308-316 | the newest valid entry, none exactly when no entry is valid |
| PresetModel.LatestAfter | clients/devbox/src/omp-model-presets/core.ts:302-316 | a new entry is the newest state exactly when it has the type and version of one; anything else changes nothing |
| PresetModel.FailedApplyRestores | clients/devbox/src/omp-model-presets/core.ts:373-412 | a failed apply leaves roles, model, thinking, log and controller as they were if and only if no failed rollback call had something to undo |
| PresetModel.FullRollbackRestores | clients/devbox/src/omp-model-presets/core.ts:391-412 | when all three rollback calls succeed everything is as before |
| PresetModel.PassesValidation | clients/devbox/src/omp-model-presets/core.ts:342-366 | apply and the restore of a named preset get past validation if and only if the name or alias is declared, each role's lookup finds its model, and no thinking level asked for is missing from those the model reports |
| PresetModel.CompletedApplyLeaves | clients/devbox/src/omp-model-presets/core.ts:373-390 | a completed apply has left the model found for the first role, that role's thinking level, the selectors of all roles and a record of the preset |
| PresetModel.CompletedRestoreLeaves | clients/devbox/src/omp-model-presets/core.ts:432-455 | a completed restore has left what the newest state in the log says: nothing, an override cleared, or the preset its name stands for, recorded anew if the name was an alias |
| PresetModel.CompletedResetLeaves | clients/devbox/src/omp-model-presets/core.ts:419-425 | a completed reset has cleared the override and recorded that no preset is active |
| PresetModel.ApplyInStep | clients/devbox/src/omp-model-presets/core.ts:373-412 | a completed apply brings controller, runtime and log into agreement; a failed one keeps it except when other roles could not be put back |
| PresetModel.ResetInStep | clients/devbox/src/omp-model-presets/core.ts:419-425 | a completed reset brings agreement; a failed one keeps it except when roles were cleared that could not be recorded |
| PresetModel.RestoreInStep | clients/devbox/src/omp-model-presets/core.ts:432-455 | a completed restore brings agreement from any state, save for an override the controller never knew of; a failed one agrees exactly when the resumed log names the preset already active |
| PresetModel.OpInStep | clients/devbox/src/omp-model-presets/core.ts:415-456 | for every operation and every sequence of answers from the runtime, agreement is kept if and only if the answers are not among those that derail: which call must throw, and after which |
| PresetModel.RunInStep | clients/devbox/src/omp-model-presets/core.ts:368-456 | over every run of operations none of which derails, controller, runtime and newest log entry agree |
| PresetModel.ResetDerails | clients/devbox/src/omp-model-presets/core.ts:420-424 | a reset whose append fails does break the agreement |
| PresetModel.ApplyLosesStep | clients/devbox/src/omp-model-presets/core.ts:385-412 | so does an apply of another preset whose model is refused and whose roles cannot be put back |
| PresetModel.RestoreLosesStep | clients/devbox/src/omp-model-presets/core.ts:447-449 | so does a session resumed under another preset whose models cannot be looked up |
| PresetController.Presets.ApplyUnlocked | clients/devbox/src/omp-model-presets/core.ts:373-412 | the statements of apply, with its rollback, compute the function the laws are about |
| PresetController.Presets.ResolveRoles | clients/devbox/src/omp-model-presets/core.ts:342-366 | the loop resolves the roles in order and stops at the first that fails |
| PresetController.Presets.ResetOverride | clients/devbox/src/omp-model-presets/core.ts:419-425 | likewise for reset |
| PresetController.Presets.InitializeNewSession | clients/devbox/src/omp-model-presets/core.ts:426-431 | likewise for a new session |
| PresetModel.InitializeLeaves | clients/devbox/src/omp-model-presets/core.ts:426-431 | a session whose log holds a valid state is left exactly as it is; in any other the document's default preset is applied |
| PresetController.Presets.RestoreSession | clients/devbox/src/omp-model-presets/core.ts:432-455 | likewise for restore |
| PresetQueue.RunIsSerial | clients/devbox/src/omp-model-presets/core.ts:328-337 | in every interleaving, once all calls have settled, the state and each result are those of running the calls one at a time in call order |
| PresetQueue.RunIsExclusive | clients/devbox/src/omp-model-presets/core.ts:328-337 | at no moment are two operations under way |
| PresetQueue.NeverBlocked | clients/devbox/src/omp-model-presets/core.ts:330-337 | until all calls have settled something can happen, rejected calls or not |
| PresetQueue.WorkFalls | clients/devbox/src/omp-model-presets/core.ts:330-337 | and each thing that happens brings the end nearer |
| PresetsInQueue.StepsPerform | clients/devbox/src/omp-model-presets/core.ts:342-455 | the awaited steps of apply, reset, restore and new session, run undisturbed, come to what the operation does, rollback included, and resolve exactly when it completes |
| PresetsInQueue.ConcurrentOpsPerform | clients/devbox/src/omp-model-presets/core.ts:328-456 | concurrent preset operations, cut at their awaits and interleaved in any way, leave the session of performing them in call order, each resolves exactly when its operation completes there, and agreement is kept on the same terms |
| MarkedBlocks.CutBlock | clients/devbox/src/app-configs/run.ts:416-421 | stripping a written block gives back the text behind it if and only if the end mark does not occur in the path inside |
| AppConfigFiles.LinkIdempotent | clients/devbox/src/app-configs/run.ts:532-555 | linking twice is linking once, and leaves the client linked |
| AppConfigFiles.LinkConserves | clients/devbox/src/app-configs/run.ts:532-555 | what was at the client path is there, under its new name, or behind the block; nothing else changes, an existing payload included |
| AppConfigFiles.SeedConserves | clients/devbox/src/app-configs/run.ts:519-525 | seeding keeps the whole original under its new name |
| AppConfigFiles.CopiedWhole | clients/devbox/src/app-configs/run.ts:523 | a filtered copy is whole if and only if no name in it is excluded and every link in it is absolute; a relative link is copied as an absolute one |
| AppConfigFiles.InspectMeans | clients/devbox/src/app-configs/run.ts:30-66 | absent, linked, foreign link and content at the client's path, told apart by what is there: a link and its target, a directory's size, a file's bytes, the managed mark and lines that begin with `Host ` |
| AppConfigFiles.TextThereAndBack | clients/devbox/src/app-configs/run.ts:413-436 | for files and included text, link with the client chosen and unlink restores the bytes if and only if the client's own name is not excluded, or the store held the same bytes |
| AppConfigFiles.MarkInPathLeavesRest | clients/devbox/src/app-configs/run.ts:416-428 | with the end mark in the store path the text does not come back whole |
| AppConfigFiles.DirThereAndBack | clients/devbox/src/app-configs/run.ts:413-436 | a directory linked into an empty store comes back the same if and only if nothing in it is excluded and every link in it is absolute |
| AppConfigFiles.RelativeLinkMoves | clients/devbox/src/app-configs/run.ts:519-525 | a directory with a link to a name beside it, such as `current -> v2`, comes back with the link naming the absolute path |
| AppConfigRun.Machine.SeedFromClient | clients/devbox/src/app-configs/run.ts:519-525 | the steps of seeding compute the function the laws are about; cut off, they have touched the payload only |
| AppConfigRun.Machine.SeedEmptyGuarded | clients/devbox/src/app-configs/run.ts:485-517 | refuses, with nothing written, exactly when the box's payload has content in a mode with a payload file |
| AppConfigRun.Machine.LinkClient | clients/devbox/src/app-configs/run.ts:532-555 | the steps of linking compute the function the laws are about; cut off, what was at the client path is there or aside, unless it is an included text |
| AppConfigRun.Machine.UnlinkClient | clients/devbox/src/app-configs/run.ts:413-436 | the steps of unlinking compute the function the laws are about; cut off, they have touched the client path only |
| AppConfigRun.Machine.PushPayloadToBox | clients/devbox/src/app-configs/run.ts:184-243 | a box payload with content is kept or renamed, never overwritten |
| AppConfigRun.Machine.LinkEntry | clients/devbox/src/app-configs/run.ts:266-333 | on every decision and wherever it stops, between box calls, between file steps or inside a write, the client's content survives, save for an included text that was not seeded and is being rewritten; nothing unrelated changes, a payload already in the store is replaced only on an answer; contested content goes to the side asked for or answered (client on `c…`, box on `b…`, neither otherwise), uncontested to the side that has it, and store and box then hold what that side had; linked is reported only when no step failed, and it dies only when one did, over an unseen box payload, or over a payload whose own name is excluded |
| AppConfigRun.TornLoses | clients/devbox/src/app-configs/run.ts:535-539 | a text that was not seeded is lost when its rewriting stops right after the file has been emptied |
| AppConfigRun.Machine.UnlinkEntry | clients/devbox/src/app-configs/run.ts:446-475 | only a linked client is touched, only at its own path wherever it stops, and a link is kept when the payload is missing; the file or directory put back is the payload exactly when every link in it is absolute |
| LockedCommands.RunWithApplyLocks | clients/devbox/src/apply-lock.ts:78-94 | the command built takes every lock in the order of the list, by the tool of the platform and without waiting, and then runs the command given |
| ConcurrentApplies.RunningAppliesAreSafe | clients/devbox/src/devbox.ts:65-77 | in every interleaving of applies killed anywhere, from any leftovers, running playbooks share no workspace and no host and each reads both files of its own staging tree |
| ConcurrentApplies.LockedExclude | clients/devbox/src/apply-lock.ts:78-94 | two applies past their locks share none |
| ConcurrentApplies.SomeoneProceeds | clients/devbox/src/apply-lock.ts:54-65 | because every apply takes its locks in one order, contending applies never all refuse each other |
| GraceClock.Reconcile | scripts/cgroup-runaway-guard.py:323-337 | keeps the first sighting of exactly the present candidates and returns those past the grace, in order |
| GraceClock.Reap | scripts/orphan-browser-reap.py:373-402 | SIGTERM goes to every reachable victim in order, and only then SIGKILL to exactly those of them still there |
| GraceClock.RunPass | scripts/agent-rc-reap.py:230-277 | a dry run signals nobody and changes nothing; otherwise the due are signalled and the file is written at the end, if it can be |
| GraceClock.FileRemembers | scripts/orphan-browser-reap.py:207-221 | the state file holds exactly the processes with an unbroken stretch of saved passes behind them, and when it began |
| GraceClock.SignalledIff | scripts/cgroup-runaway-guard.py:323-369 | in every run a process is signalled if and only if it is a reachable candidate whose unbroken stretch of saved passes began at least the grace earlier |
| GraceClock.SavedRunSignals | scripts/cgroup-runaway-guard.py:439-459 | with every pass saved, a signalled process was a candidate at each pass of such a stretch |
| GraceClock.BreakRestarts | scripts/agent-rc-reap.py:103-117 | absence from a saved pass, or a kill, restarts the clock whatever the other passes do: the next signal is at least the grace after a later pass at which a new stretch begins |
| GraceClock.BreakRestartsIff | scripts/agent-rc-reap.py:263-269 | a pass from which the process is absent, or at which it is signalled, restarts the clock for good if and only if that pass is saved or the file held no credit |
| GraceClock.UnsavedPassKeepsCredit | scripts/agent-rc-reap.py:263-269 | a process gone from a pass that cannot save is signalled on the credit from before it |
| RunawayGuard.ReadMembers | scripts/cgroup-runaway-guard.py:197-251 | the members at or above the floor of the prefix scanned before the deadline, and whether that was all |
| RunawayGuard.SelectCandidate | scripts/cgroup-runaway-guard.py:254-274 | the first of the largest unprotected members that clear both bars |
| RunawayGuard.PrefilterAgrees | scripts/cgroup-runaway-guard.py:197-274 | picking from members prefiltered by the floor is picking from all readable members |
| RunawayGuard.Assess | scripts/cgroup-runaway-guard.py:286-320 | each verdict by its evidence: usage and limit known, not zero, and usage at the ratio of the limit; pressure; and among the processes scanned in time one that is at least the floor and the share of the usage and whose name begins with no protected prefix, of which the victim is a largest; `stalled-no-candidate` only after a complete scan |
| OrphanBrowsers.CdpPorts | scripts/orphan-browser-reap.py:265-285 | the ports of the process's own sockets only, and whether they could be read |
| OrphanBrowsers.OrphanNeedsProof | scripts/orphan-browser-reap.py:187-200 | a browser is an orphan if and only if, besides profile, service and spawner, its sockets were read, one of its own rows is in state `0A`, and none in state `01` with a peer is on the port of such a row |
| OrphanBrowsers.ProfilesToPurge | scripts/orphan-browser-reap.py:405-423 | exactly the profiles of browsers that were hit which are throwaway, strictly below a root, and named by no surviving browser |
| PaseoSessions.ReadSessions | scripts/paseo-session-reap.py:146-186 | exactly the roots whose agent has a record, each once, the largest first |
| PaseoSessions.OneSessionAbove | scripts/paseo-session-reap.py:149-186 | with an acyclic parent relation every owned process reaches exactly one session through its own agent's processes |
| PaseoSessions.NestedIff | scripts/paseo-session-reap.py:169-173 | one session of an agent lies below another, along any chain of parents, if and only if some chain up from a process of a recorded agent leaves the agent at its first step and comes back to it |
| PaseoSessions.NestedPastAnother | scripts/paseo-session-reap.py:169-173 | such a tree: a process of an agent below one of another agent, below one of its own |
| PaseoSessions.Release | scripts/paseo-session-reap.py:193-235 | every victim is sent SIGTERM first, then SIGKILL goes to exactly those that took it and are still there; released are those that took it and may be asked after |
| PaseoSessions.Sweep | scripts/paseo-session-reap.py:238-262 | exactly the finished root sessions are signalled: a process of an agent with a record, its parent not of that agent, the record idle or closed, and silent for longer than the cutoff; each is sent SIGTERM, and nobody else anything |
| ClientPorts.AssignClientPorts | clients/devbox/src/spec/client-ports.ts:13-28 | explicit ports are kept and every other developer has the least port from 3389 upward neither explicit nor given before; with distinct users the map names exactly the developers with a desktop and gives each their own port, or one that is nobody else's with every lower one from 3389 taken |
| ClientPorts.DesktopsKept | clients/devbox/src/spec/client-ports.ts:14-15 | exactly the developers with a desktop are served, in their order |
| ClientPorts.AssignmentUnique | clients/devbox/src/spec/client-ports.ts:8-12 | only one assignment is like that |
| ClientPorts.EveryoneHasTheirs | clients/devbox/src/spec/client-ports.ts:13-28 | with distinct users the map gives each developer the port assigned to them |
| ClientPorts.PortBound | clients/devbox/src/spec/client-ports.ts:18-26 | with n desktop developers no automatic port is beyond 3389 + n - 1 |
| ClientPorts.PortsDifferIff | clients/devbox/src/spec/client-ports.ts:13-28 | all ports differ if and only if the explicit ones do |
| ClientPorts.AppendMovesNobody | clients/devbox/src/spec/client-ports.ts:6-8 | appending a developer without a port moves nobody; with one, nobody exactly when nobody had been given that port |
| Sections.Find | clients/devbox/src/add.ts:122-164 | the loops find the first line of the developer, the end of their block, their list and its end |
| Sections.AddsOneStretch | clients/devbox/src/add.ts:173-190 | one stretch of lines goes in at the end of the developer's list, inside their block; every line before and behind is kept |
| AddProject.AddProjectToYaml | clients/devbox/src/add.ts:173-190 | the snippet goes in at the end of the list under the line `projects:`, two blanks deeper than the first line `- user:` with the given name, plain or in quotes, and within that developer's block; refused exactly when there is no such developer, no such line in the block, or the list has a `- name:` with the project's name |
| AddProject.EntryGives | clients/devbox/src/add.ts:79-92 | the entry gives the name, the repository in quotes, the branch, whether to install, no update and no ports, each on its line |
| AddProject.SecondAdditionRefused | clients/devbox/src/add.ts:78-190 | a second addition of a project is refused if and only if the developer's line is indented by less than four and the name reads back from its line as it is |
| SpecModel.ValidateReferences | clients/devbox/src/spec/references.ts:29-155 | exactly what there is to report is reported: a user or project named before, an identity or profile that is not declared, a space neither declared nor `none`, an engine neither installed nor none, each at its place |
| PortClaims.PortIssues | clients/devbox/src/spec/references.ts:225-246 | a reserved port is reported, and a contested one on every claimant, each time with all the other claims |
| PortClaims.CleanPorts | clients/devbox/src/spec/references.ts:221-246 | nothing is reported exactly when no claim is of port 22, 2022 or 3389 and no two are of the same |
| Resolution.ResolvedIsDeclared | clients/devbox/src/spec/resolve.ts:53-121 | once references hold and the default engine is installed or none, every resolved identity and profile is declared or none, the engine installed or none, and the memory space declared, none, or the literal `none` of a default space |
| Resolution.SpaceIsDeclared | clients/devbox/src/spec/resolve.ts:102-121 | the name `none` comes out exactly when neither project nor profile names a space and the default is `none`, or there is no default and the only space declared is called that |
| Resolution.ResolveSpec | clients/devbox/src/spec/resolve.ts:189-222 | each identity and profile is the project's own, else the developer's default, else the only one, else none; the engine the first given by project, developer and specification; the space the project's, else the resolved profile's, `none` meaning no space, else by the same chain; it fails exactly when along the chains of some project nothing decides, and reports exactly what is open |
| Resolution.ChainsUnique | clients/devbox/src/spec/resolve.ts:60-121 | the chains leave one result |

## Left out

- Shell text other than the push pipeline and the step order of the locked apply script, and the shell's expansions: the reader of `ShellQuoting` refuses what it does not cover.
- The meaning of the emitted YAML to other readers: `YamlReader` follows the core schema of YAML 1.2.2 and its sections 7.3.1, 8.2.1 and 8.2.2; YAML 1.1 resolution, fractional numbers and keys that need quoting are not modelled.
- JavaScript strings are sequences of characters; surrogate pairs are not told apart. Letter case folding covers ASCII.
- The JSON parser of `rewriteJsonl` is a parameter, and the sidecar copy and the dry-run preview of changed lines are not modelled.
- Birth identities, tokens and the millisecond stamps of reservations are values that never repeat, and a name set aside is not taken (the stamp in it, clients/devbox/src/app-configs/run.ts:18, has whole seconds only, so two renames of one path within a second are not modelled); a process that has exited but not been reaped counts as another identity under its pid.
- `mount down` and the recovery of disconnected mounts, which drop an entry right after signalling.
- Whether a signal sent to a pid reaches the process seen there a moment before; signals are requests and exits happen on their own.
- A runtime call of the preset controller that throws is taken to have changed nothing.
- App configs whose files are not of the kind their mode is about, and a link in place of the payload itself, are outside `AppConfigFiles.Suits`; included texts are valid UTF-8, as the code reads and writes them as such; client paths are absolute, as `normalizePath` makes them; what copying a directory onto another yields, and how exclusion patterns match, are parameters; the box-side helper's own file operations are not modelled.
- AppConfigRun.Machine.LinkEntry: does not say what the box's own payload becomes when the box is chosen, because the helper that seeds it is not part of this model.
- The parsing of the inventory (`inventoryTargets`), the hashing of resource names and the real lock tools; a lock is held until its process ends. A `plan --write-vars` beside an apply is excluded.
- Reuse of a pid between the two signals of a reaper, and overlapping passes of one script.
- The reading of `/proc`, the orphan rule of `agent-rc-reap.py`, percent arithmetic in floating point, and the deletion of profile trees.
- SpecModel.ValidateReferences: leaves out the issues about memory instances, desktop access, runtime limits and the browser's ports.
- `addServerToYaml`, `toSshUrl`, remote session listings, health aggregation, recovery registries, plan rendering and all user interface.
