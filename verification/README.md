# A verified model of the pot task driver

This project models the Nomad task driver for FreeBSD `pot` jails and proves what it guarantees. Three parts of the
driver carry the weight.

**The command compiler** (`Naming`, `Shell`, `ShellCommands`, `CreateArguments`, `Plan`, `Prepare`, `Signals`, `Steps`,
`Pot`, `Host`, `Checks`). A task configuration becomes argument vectors and `sh -c` lines, which are run as an ordered plan. The
printing loops are methods proved against functions; the functions are proved against a reader: a word splitter after
the Shell Command Language of IEEE Std 1003.1-2017 (sections 2.2.1 to 2.2.3 and 2.3) and an option parser after section
12.2 of its Base Definitions. The splitter refuses a line on anything that is not a plain word, so a line that is read
back has no expansion, operator, pattern or comment in it. `shellescape.Quote` is a library; it is modelled by a concrete
definition for which the contract the driver relies on is proved (`Shell.QuoteReads`). A `Host.Machine` answers every
command as it likes and remembers all of them, so every statement about commands is a statement about its log.

**The task lifecycle** (`Handles`, `Driver`, `Recovery`, `Lifecycle`, `LifecycleSound`, `LifecycleDestroy`,
`LifecycleOwn`, `LifecycleCodes`, `LifecycleRuns`, `LifecycleStarts`, `LifecycleSerial`, `LifecycleResults`,
`LifecycleRevival`, `LifecycleRaces`, `LifecycleAlone`, `LifecycleBegins`). The classes in `Driver` and `Handles` are
the calls as one undisturbed caller sees them, with their full effect on store, handle and command log. `Lifecycle` is the same code under concurrency: a step system cut at every lock,
compare-and-swap and external command, with any number of tasks, handles, API calls and goroutines, and a log of the
commands that were launched. Both are built on the same values (`Handles.Handle`, `Allocate`, `Publish`, `AfterPotWait`, `AfterRecoverWait`, `Destroying`, `Refuses`), and
`LifecycleAlone` and `LifecycleBegins` prove that the steps of one waiter or one call with nobody in between do what the
method does.
Statements come in four grades:

- for every run whatsoever (`AtMostOneDestroy`, `NoInterference`, `NeverUnknown`, `StartsInOrder`, `KeptIffNotDeleted`,
  `FindsOwnIffNotDeleted`, `RevivesIff`);
- for tidy runs: a destroy call deletes the handle it has inspected, or is forced and finds that the handle's waiter has
  looked it up (`RevivesIffPending`);
- for orderly runs, which are tidy and in which `run` has finished whenever `cmd.Wait` returns (`RefinesLifeCycle`,
  `ExitedForGood`, `CrashesIff`, `FinalResult`, `MisledIff`); `FinalExitCode` adds that no statistics command on the
  handle has failed before `run` published, since such a command leaves its status where `run` looks for the exit code;
- for runs a caller of the driver can bring about: no forced destroys, destroys of one task serialised
  (`WaiterFindsOwn`, `FollowsLifeCycle`).

Start and Recover calls of one task ID are taken to be serialised, which is Nomad's doing: `driver/driver.go:385` and
`driver/driver.go:482` are apart. `LifecycleRaces` gives, for each of the other premises, a run of the step system in
which it fails, and what goes wrong then.

**The exec-streaming protocol** (`ExecStream`, `ExecSafety`, `ExecRuns`, `ExecPump`, `ExecStdin`). The main goroutine, the
pumps and the process are a step system with any interleaving, any chunking of reads and a failure at any point; the same
pump function `ExecStream.PumpNext` drives the system and is what the imperative loops of `ExecPump` and `ExecStdin` are
proved to go through. `ExecRuns.ReturnsIffSpared` says exactly when `run` can still return.

## What the proofs found

- An unforced destroy can take away a running task's handle: `DestroyTask` looks up, inspects and deletes in three steps
  and deletes by ID, so with two destroy calls and a start in between, the second deletes a handle it has never seen, and
  that handle's waiter dereferences nil when the process is over (`LifecycleRaces.UnforcedDestroyLosesHandle`). It cannot happen if the destroys of
  one task are serialised (`LifecycleSerial.WaiterFindsOwn`).
- A waiter marks its handle exited before it stores the exit code, so a failed task can be seen as exited with zero
  (`LifecycleRaces.EarlyResultMisleads`). In an orderly run without statistics commands that fail early, once the waiter
  has finished: of a fresh start a result that was not to stay has been visible if and only if `Wait` reported a failure,
  of a recovered task if and only if the statistics of its last run do not say zero (`LifecycleResults.MisledIff`).
- A start that finds its pot alive registers a handle without a result record; if `Wait` then fails, the plugin crashes
  (`LifecycleRaces.AdoptedRunCrashes`).
- A destroy, a launch, a signal or a statistics command that cannot be started takes the plugin down, because its process
  is dereferenced without a look at the error: where `pot` cannot be run, a start fails to create and then crashes over the
  destroy (`LifecycleRaces.UnstartableCrashes`). In orderly runs the plugin crashes over one of these two and over nothing
  else (`LifecycleRuns.CrashesIff`, `LifecycleRuns.CanCrashIff`).
- If `cmd.Wait` returns before `run` has published, an exited task goes back to running
  (`LifecycleRaces.LateRunRevives`). A recovery can do the same to a handle that the waiter of an earlier one has found
  and marked exited (`LifecycleRevival.RecoveryRevives`). There is no other way, in any run
  (`LifecycleRevival.RevivesIff`), and in a run whose destroys are in order only the first
  (`LifecycleRuns.RevivesIffPending`).
- A statistics command that fails before `run` has published leaves its status as the result of a task that exits cleanly
  (`LifecycleRaces.EarlySampleSticks`); a clean exit leaves zero if and only if the last such command did not fail
  (`LifecycleResults.FinalResult`).
- `handleWait` sends a result at every tick after the exit, on a channel without a buffer and without watching its context,
  so it blocks for good at the first result nobody takes (`Handles.HandleWait`).
- An attribute, copy or mount command that fails without an exit status, for one because it cannot be started, is passed
  over, and the pot is launched without what it should have set up (`Steps.CreateSucceedsIff`).
- A mount or attribute entry loses everything after its second colon (`ShellCommands.MountReads`,
  `ShellCommands.AttributeReads`).
- Command and arguments are joined without quoting: they can be told apart again only if none holds a blank
  (`CreateArguments.CommandWords`).
- A three-part task ID shares its pot name with another task, one that Nomad could form, if and only if its first or its
  third part holds an underscore (`Naming.PotNameShared`).
- The README of the driver gives `public-bridge` as the default network mode; the code passes no mode at all unless there
  are port mappings (`driver/prepare.go:58-62`). The model follows the code.

## Model

| member | source | states |
|---|---|---|
| Naming.NamingSitesAgree | driver/prepare.go:73-83 | the name that the create arguments spell from base name and suffix is the name used everywhere else, and the guard on an empty suffix never fires |
| Naming.TaskIdRecovered | driver/prepare.go:239-242 | a three-part ID can be read back from its pot name if and only if its first and third parts hold no underscore; the task name may hold any number |
| Naming.PotNameInjective | driver/prepare.go:266-267 | two such IDs share a pot name only if they are the same |
| Naming.PotNameShared | driver/prepare.go:73-83 | a three-part ID shares its pot name with another, well-formed one if and only if its first or third part holds an underscore |
| Naming.PotNameCollides | driver/prepare.go:291-292 | for example, two different tasks name the same pot |
| Shell.QuoteReads | driver/prepare.go:86-90 | the contract of `Quote`: read outside quotes it appends exactly the quoted text to the word and ends outside quotes, whatever the text holds |
| Shell.QuoteInjective | driver/prepare.go:86-90 | no two texts are quoted alike |
| Shell.SpliceReads | driver/prepare.go:159 | text put on a line without quotes is read as one word spelled like itself if and only if it is a plain word |
| ShellCommands.CopyReads | driver/prepare.go:93-103 | the copy line is read as the intended arguments, the source being what stands before the first colon, for arbitrary texts |
| ShellCommands.MountReads | driver/prepare.go:105-125 | mount and read-only mount lines are read as the intended arguments if and only if the destination holds no colon of its own |
| ShellCommands.AttributeWordsRead | driver/prepare.go:128-136 | the attribute line is read as attribute and value, the first two fields of the entry |
| ShellCommands.AttributeReads | driver/prepare.go:128-136 | the attribute line is read as the intended arguments if and only if the value holds no colon of its own |
| ShellCommands.OwnMountsRead | driver/prepare.go:85-91 | the lines for the local and the secrets directory are read as the intended arguments for any directory |
| ShellCommands.EnvReads | driver/prepare.go:139-146 | the environment line is read as one `-E` and one word `name=value` per variable, in any order of iteration, for arbitrary names and values |
| ShellCommands.EnvBindings | driver/prepare.go:141-143 | the words of that line, variable by variable: quoted name, equals sign and quoted value join into one word |
| ShellCommands.HostsRead | driver/prepare.go:148-154 | the hosts line is read as one `-H` and one word per host entry |
| ShellCommands.HostBindings | driver/prepare.go:150-152 | the words of that line, entry by entry |
| ShellCommands.MemoryReads | driver/prepare.go:157-160 | the memory line is read as intended if and only if the pot name is a plain word, because it is spliced without quotes |
| ShellCommands.DecimalRoundTrip | driver/prepare.go:157-158 | the printed memory limit denotes the limit |
| CreateArguments.PairParses | driver/prepare.go:40-79 | an option letter takes the next argument for its value whatever that looks like |
| CreateArguments.FlattenedParses | driver/prepare.go:40-79 | a vector of options and values is parsed back into exactly those, with the verbose flag last and no operand |
| CreateArguments.CreateParses | driver/prepare.go:40-79 | the create vector is parsed back into image, pot and tag; command and arguments between double quotes, if there is a command; the network mode, or `public-bridge` and an automatic address for ports without one; the exports; suffix and base name from the parts of the task ID; verbose |
| CreateArguments.ExportsRead | driver/prepare.go:64-71 | read from that vector, each export is the value in the port map, a colon and the port that `NOMAD_HOST_PORT_<name>` names, mapping by mapping; they come apart again at the first colon if and only if the value holds none; the host network has no exports |
| CreateArguments.ExportsCounted | driver/prepare.go:64-71 | in every order of iteration each export is printed as often as there are port mappings that spell it |
| CreateArguments.CommandWords | driver/prepare.go:42-57 | the command stands between double quotes, and falls apart into command and arguments if and only if none of them holds a blank |
| Plan.LoopsRead | driver/pot.go:210-287 | every line that the four loops run is read as the intended command, in the order attributes, copies, mounts, read-only mounts |
| Plan.LastLinesRead | driver/pot.go:289-317 | so are the environment, hosts and memory lines, the last one if and only if the pot name is a plain word; without variables or hosts the line is empty and says nothing |
| Plan.PlanReads | driver/pot.go:210-319 | the whole plan is read as meant if and only if the pot name is a plain word |
| Pot.CommandsSpelled | driver/prepare.go:162-177 | start, statistics, last-run statistics and destroy each name their own verb and the task's own pot, argument by argument; the destroy gets its `-F` at the launch |
| Checks.SingleSpliceReads | driver/pot.go:376-377 | text spliced in between two single quotes is read as itself if and only if it holds none |
| Checks.AliveCheckReads | driver/pot.go:374-379 | the liveness check asks for the process of the pot if and only if the pot name holds no single quote |
| Checks.ExistsCheckReads | driver/pot.go:405-411 | the existence check is a listing piped into a search, which looks for the pot name if and only if that is a plain word |
| Pot.PrintCommand | driver/prepare.go:42-57 | arguments without a command are refused; otherwise command and arguments joined by blanks |
| Pot.PrintExports | driver/prepare.go:64-71 | the loop over the port map appends one option per mapping, in whatever order it runs; how an export is spelled is `CreateArguments.ExportsRead` |
| Pot.PrintCreate | driver/prepare.go:32-81 | builds step by step the create vector that `CreateArguments.CreateParses` reads, or refuses |
| Prepare.PrintCopies | driver/prepare.go:93-103 | the loop over the copy entries prints one line for each, in order |
| Prepare.PrintMounts | driver/prepare.go:105-113 | the loop over the mount entries appends one line for each to those already there |
| Prepare.PrintReadOnlyMounts | driver/prepare.go:115-125 | the loop over the read-only mount entries prints one line for each, in order |
| Prepare.PrintAttributes | driver/prepare.go:127-136 | the loop over the attributes prints one line for each, in order |
| Prepare.PrintEnv | driver/prepare.go:138-146 | the loop over the environment prints one line that sets all of it, in whatever order it runs |
| Prepare.PrintHosts | driver/prepare.go:148-154 | the loop over the extra hosts prints one line that sets all of them |
| Prepare.PrepareContainer | driver/prepare.go:31-179 | refuses exactly arguments without a command; otherwise leaves every command of the task in the fields of the result, as `CreateArguments.CreateParses`, `Pot.CommandsSpelled` and `Plan.PlanReads` read them |
| Prepare.PrepareDestroy | driver/prepare.go:228-246 | prepares the destroy command of the task's pot |
| Signals.ReverseSignalMap | driver/prepare.go:18-24 | for every table and every order of iteration the result is defined on exactly the table's signals and sends each to a name that denotes it, aliases included |
| Signals.ReverseTwice | driver/prepare.go:18-24 | reversing twice gives the table back if and only if it holds no aliases |
| Signals.PrepareSignal | driver/prepare.go:248-275 | fails exactly on a signal that no name denotes; otherwise prints a name of the requested signal and the task's pot |
| Signals.PrepareExec | driver/prepare.go:277-302 | refuses exactly the empty command; otherwise passes the given words on unchanged after the task's pot |
| Steps.ExecutePrefix | driver/pot.go:170-320 | a plan is attempted as a prefix, each step at most once and in order, up to the first step that fails |
| Steps.PlanSucceedsIff | driver/pot.go:170-320 | any list of steps succeeds if and only if every step passes, and then all of it was attempted; which answers pass is said by `Steps.CreateSucceedsIff` |
| Steps.CreateIssues | driver/pot.go:170-320 | the commands of a create plan one by one: the create command, the lines of the loops in order, then environment, hosts and memory |
| Steps.CreateSucceedsIff | driver/pot.go:195-319 | a create plan succeeds if and only if the create command and the last three lines succeed and no line of the loops ends with an exit status other than zero: errors without one are passed over |
| Steps.PlanDestroysNothing | driver/pot.go:170-320 | no part of a create plan destroys a pot |
| Pot.Syexec.RunEach | driver/pot.go:210-228 | one of the loops: launches the lines in order up to the first whose answer is an exit error, which fails it; errors without an exit status do not |
| Pot.Syexec.CreateContainer | driver/pot.go:170-320 | runs the plan create, attributes, copies, mounts, read-only mounts, environment, hosts, memory: log and verdict are those of the ordered plan; it succeeds if and only if the create command and the last three lines do and no line of the loops ends in an exit error; success leaves exit code zero |
| Pot.Syexec.StartContainer | driver/pot.go:90-131 | the launch needs open pipes and a leftover code fails it; a launch that cannot be started crashes |
| Pot.AtomicBool.CompareAndSwap | driver/pot.go:134-136 | swaps if and only if the flag has the expected value |
| Pot.Syexec.DestroyContainer | driver/pot.go:133-168 | without a flag always destroys, with one only the caller that turns it; the flag is up afterwards; nothing else changes for the losers; a destroy that cannot be started crashes |
| Pot.Syexec.GetContainerLastRunStats | driver/pot.go:430-478 | yields the code if the command succeeds and its output parses; a command that cannot be started crashes |
| Pot.Syexec.CheckContainerAlive | driver/pot.go:371-400 | asks about the task's own pot name and passes the answer on |
| Pot.Syexec.CheckContainerExists | driver/pot.go:402-428 | asks about the task's own pot name and passes the answer on |
| Handles.TaskHandle.RunAllocate | driver/handle.go:56-60 | the first locked section of `run` |
| Handles.TaskHandle.RunPublish | driver/handle.go:62-76 | the second locked section of `run` |
| Handles.TaskHandle.Run | driver/handle.go:55-77 | undisturbed and without an exit error, leaves the task running with the handle's exit code as its result |
| Handles.TaskHandle.IsRunning | driver/handle.go:49-53 | tells whether the state is running |
| Handles.TaskHandle.TaskStatus | driver/handle.go:32-47 | shows state and result of the handle |
| Handles.CleanExit | driver/driver.go:533-548 | the code `potWait` leaves is zero if and only if the pot exited cleanly, or exited with 125 and the statistics of its last run say zero; 255 where there are none to ask |
| Handles.HandleWait | driver/driver.go:570-591 | the ticker loop sends a result for exactly the ticks that find the task exited, until the first one that the other end does not receive, where it blocks |
| Handles.DeliversFromExitOn | driver/driver.go:570-591 | on a task that stays exited nothing is due before the exit, and from then on a result at every tick, not only the first, so that an other end that takes one result only leaves the loop blocked at the second tick |
| LifecycleResults.NilIffAdopted | driver/driver.go:585-588 | in an orderly run the result of a task that is seen exited is nil if and only if its start adopted a living pot |
| Driver.TaskStore.Set | driver/state.go:16-20 | sets one key and nothing else |
| Driver.TaskStore.Get | driver/state.go:22-27 | finds exactly what is in the store |
| Driver.TaskStore.Delete | driver/state.go:29-33 | removes one key and nothing else |
| Driver.Driver.CreateAndStart | driver/driver.go:411-440 | the existence check; if that finds the pot, the launch; if not, the create plan as far as it passes, and the launch if all of it did |
| Driver.Driver.StartTask | driver/driver.go:380-492 | from the answers to its checks and commands: a living pot gets no further command, one that exists is launched, any other one is created by the whole plan and then launched; a failure on the way leaves a prefix of the plan and one destroy, and no task in the store; a start that gets through registers exactly one handle, running and without a result; and it panics exactly over a launch or a destroy that cannot be started |
| Driver.StartCases | driver/driver.go:408-441 | the same of the part between preparation and registration, for all answers |
| Driver.StartConservation | driver/driver.go:406-491 | up to its registration or failure a start destroys nothing; so the one destroy of a failed start is its last command |
| Driver.Driver.RecoverTask | driver/driver.go:260-377 | when exactly each result comes about, the panic over a destroy that cannot be started included, with its effect on the store, the state written for Nomad and the commands launched for it |
| Driver.Driver.PotWait | driver/driver.go:530-554 | does to handle and log exactly what `AfterPotWait` says for the answers of the machine: exited, the code the outcome calls for, statistics after status 125, one destroy unless somebody else has; panics without a handle, without a record for a failure, and over a command that cannot be started |
| Driver.Driver.PollUntilGone | driver/driver.go:498-511 | polls until the first poll that finds the pot gone or until the driver shuts down |
| Driver.Driver.RecoverWait | driver/driver.go:494-528 | polls until the first poll that finds the pot gone or until the driver shuts down, and then does to handle and log exactly what `AfterRecoverWait` says; panics without a handle or a record, and over a command that cannot be started |
| Driver.Driver.StopTask | driver/driver.go:593-615 | launches one destroy of the task's pot unless the flag was up, leaves it up, and panics over a destroy that cannot be started |
| Driver.Driver.SignalTask | driver/driver.go:658-692 | never returns the error for a signal without a name; signals the task's own pot with a name of the requested signal, and panics if that cannot be started |
| Driver.Driver.DestroyTask | driver/driver.go:618-630 | refuses exactly a running task that is not forced; otherwise deletes that task and nothing else |
| Recovery.Restart | driver/driver.go:269-375 | a recovery sets the key that the saved configuration names, with a handle of that ID; the waiter's key is there if and only if saved and handed-over ID agree; afterwards they agree |
| Recovery.StartAndRestart | driver/driver.go:341-482 | over a start and any number of restarts they always agree, so a handle that is set has the ID, and so the pot, of the original start |
| LifecycleSound.SoundStep | driver/driver.go:260-630 | in every run whatsoever handles keep their task and are never in the unknown state, waiters work on handles of their own task, and commands name the pot of the task they are issued for |
| LifecycleDestroy.DestroyStep | driver/pot.go:133-168 | every step keeps the balance: the flag of a handle is up exactly while its winner is about to launch or after the one launch |
| LifecycleDestroy.SpawnStep | driver/driver.go:482-488 | every step keeps it that only the starter that registered a handle spawns its goroutines |
| LifecycleOwn.ActProper | driver/driver.go:494-554 | a waiter on its own handle takes it only forward, through the code the outcome calls for |
| LifecycleOwn.OwnStep | driver/driver.go:260-630 | every step that deletes in order keeps every waiter on its own handle, and lets no handle go back unless its `run` is yet to publish |
| LifecycleOwn.VacantStep | driver/driver.go:385-482 | with the starts of one task serialised, nothing is registered between the lookup of a start and its registration, in every run whatsoever |
| LifecycleRuns.AtMostOneDestroy | driver/pot.go:133-168 | in every run, with any number of stops and waiters, at most one destroy per handle; exactly one if and only if the flag is up and its winner has launched; so exactly one once its waiter has finished and nobody is between winning and launching |
| LifecycleRuns.NoInterference | driver/pot.go:371-405 | in every run every command names the pot of its task, and commands of different tasks with well-formed IDs name different pots |
| LifecycleRuns.NeverUnknown | driver/handle.go:62-76 | in no run is a task ever in the unknown state, since the exit error is never set |
| LifecycleRuns.KeptIffNotDeleted | driver/state.go:16-33 | in every run a registered handle is still in the store if and only if no destroy call has deleted it |
| LifecycleRuns.FindsOwnIffNotDeleted | driver/driver.go:513-531 | in every run the lookup of a waiter finds its own handle if and only if no destroy call has deleted it |
| LifecycleRuns.OwnAfter | driver/driver.go:260-630 | orderly runs keep all of this from beginning to end, and `Wait` has answered nobody early |
| LifecycleRuns.RefinesLifeCycle | driver/driver.go:260-630 | as long as `Wait` has answered nobody early, every step that deletes in order takes every task along absent, running, exited, absent; only a forced destroy drops a running one; the unknown state is never reached |
| LifecycleRuns.ExitedForGood | driver/handle.go:55-77 | a handle that has exited in an orderly run stays so however the run goes on tidily |
| LifecycleRuns.RevivesIffPending | driver/handle.go:55-77 | in a run whose destroys are in order an exited handle is running again in some continuation if and only if its `run` is yet to publish |
| LifecycleRevival.RevivesIff | driver/driver.go:362-368 | in every run, and however it goes on, an exited handle can be running again if and only if its `run` is yet to publish or the recovery that registered it is yet to set it running |
| LifecycleRevival.RecoveryRevives | driver/driver.go:362-368 | there is a run in which the waiter of one recovery marks the handle of the next one exited, and that sets it running again |
| LifecycleRuns.CrashesIff | driver/pot.go:149-166 | an orderly run crashes at a step if and only if it is that of a waiter of an adopted pot whose `Wait` has failed, or a command that cannot be started |
| LifecycleRuns.CanCrashIff | driver/pot.go:120 | so the next step of an orderly run can crash if and only if there is such a waiter, or somebody is about to launch a destroy, a pot, a signal or statistics |
| LifecycleRuns.CrashesOnly | driver/driver.go:536 | the same of one step from any state that orderly runs reach: no other step crashes |
| LifecycleRuns.AdoptedCrashes | driver/driver.go:441-462 | and there it does crash |
| LifecycleCodes.CodesStep | driver/handle.go:62-76 | in every run only a statistics command changes the code of a handle, `run` stores the one it finds once and for good, and only an answer of `Wait` before that counts as early |
| LifecycleResults.SampleStored | driver/handle.go:118-130 | in every run what `run` stores is the status of the last statistics command before, or zero if there was none |
| LifecycleResults.FinalResult | driver/driver.go:530-548 | when the waiter of a fresh start has finished, in an orderly run, the task is exited, and its result is what `run` stored if `Wait` reported success, the code of the last run if it reported 125 and there is one, and 255 otherwise; so a clean exit leaves zero if and only if the last statistics command before `run` did not fail |
| LifecycleResults.FinalExitCode | driver/driver.go:530-548 | if no statistics command failed before `run` published, the code is zero if and only if the pot exited cleanly or exited with 125 and statistics that say zero; the statistics' code if there is one; 255 for every other failure |
| LifecycleResults.ShowedIffShownBy | driver/driver.go:533-548 | in an orderly run what has ever been visible on an exited handle is exactly what the place of its waiter tells |
| LifecycleResults.MisledIff | driver/driver.go:513-548 | in an orderly run, once the waiter has finished, an exited task has shown a result that was not the final one if and only if, on a fresh start, `Wait` failed and code stored and final code are not both 255, or, on a recovered task, the recorded code is not the final one; without early failing statistics: if and only if `Wait` failed, or the last run's statistics do not say zero |
| LifecycleStarts.StartsInOrder | driver/driver.go:260-491 | in every run the commands that starts and recoveries issue for a task come in order: no create or launch without the checks before it, and whatever a start has begun is launched or undone by one destroy before the next one of the task begins |
| LifecycleSerial.SteadyStep | driver/driver.go:618-630 | if no destroy is forced and those of one task are serialised, what a destroy call looked up stays in the store until it deletes it |
| LifecycleSerial.WaiterFindsOwn | driver/driver.go:494-554 | then the lookup of every waiter finds its own handle |
| LifecycleSerial.FollowsLifeCycle | driver/driver.go:260-630 | and as long as `Wait` has answered nobody early every task follows the life cycle without the forced edge, and only an adopted pot's failing waiter and a command that cannot be started bring the plugin down |
| LifecycleRaces.LateRunRevives | driver/handle.go:73-74 | there is a run in which `run` publishes late and takes an exited handle back to running |
| LifecycleRaces.EarlySampleSticks | driver/handle.go:118-130 | for every status there is a run in which a statistics command with that status comes before `run`, and a task that exits cleanly ends with it as its result |
| LifecycleRaces.AdoptedRunCrashes | driver/driver.go:441-488 | there is a run in which a start adopts a living pot, `Wait` fails, and the plugin crashes |
| LifecycleRaces.UnstartableCrashes | driver/driver.go:412-418 | there is a run in which a start fails to create its pot, goes on to destroy it, cannot start that, and takes the plugin down |
| LifecycleRaces.EarlyResultMisleads | driver/driver.go:533-536 | there is a run in which a failed task can be seen as exited with zero |
| LifecycleRaces.UnforcedDestroyLosesHandle | driver/driver.go:618-630 | there is a run without forced destroys in which a running task's waiter finds no handle, and crashes the plugin when `Wait` answers |
| LifecycleAlone.PotWaitAlone | driver/driver.go:530-554 | the steps of an undisturbed `potWait` do to handle, log and plugin what the method does, for all answers |
| LifecycleAlone.RecoverWaitAlone | driver/driver.go:513-528 | so do those of an undisturbed `recoverWait` that has stopped polling |
| LifecycleAlone.StopAlone | driver/driver.go:593-615 | so do those of an undisturbed stop |
| LifecycleAlone.DestroyAlone | driver/driver.go:618-630 | so do those of an undisturbed destroy call |
| LifecycleBegins.StartAlone | driver/driver.go:380-491 | so do those of an undisturbed start, for all answers: check, existence check and create as called for, launch, registration with the goroutines it spawns; a failure is undone by one destroy, a command that cannot be started crashes |
| LifecycleBegins.RecoverAlone | driver/driver.go:260-377 | so do those of an undisturbed recovery: a living pot is taken up running with result zero and polled, one that is gone is left alone |
| LifecycleBegins.PollsAlone | driver/driver.go:498-511 | an undisturbed waiter polls until the first poll that finds the pot gone |
| LifecycleBegins.PollsEnd | driver/driver.go:498-511 | in every run a waiter stops polling exactly at a poll that finds the pot gone or at the shutdown of the driver |
| ExecPump.HandleOutput | driver/exec_utils.go:205-277 | the goroutine of `handleStdout` or `handleStderr` goes through a course of the protocol to its end, with exactly its reads, its sends and its use of the lock in that order; reports at most one error and exactly if it ends badly; and releases the wait group once, as the last thing it does, after the report |
| ExecPump.PumpOutput | driver/exec_utils.go:207-239 | its loop, up to the release of the wait group |
| ExecPump.ClosedErrors | driver/exec_utils.go:279-287 | the end of a stream is the end of the file, a closed pipe, or any error whose text holds that of the I/O error |
| ExecPump.SendsWhatItReads | driver/exec_utils.go:208-239 | at every point of a course what was sent is what was read, in order and in proper frames, but for what is in hand |
| ExecPump.CourseDelivers | driver/exec_utils.go:245-276 | at the end of a course everything read was sent, and one close frame after it if and only if it ended well |
| ExecStdin.HandleStdin | driver/exec_utils.go:174-203 | the process gets the client's input in order; its input is closed if and only if a request asks for it, unless the write of that request failed; a terminal is given the low sixteen bits of height and width of every resize request, in order; an error is reported at most once, as the last step, and if and only if receiving, a write or a resize failed; the loop goes through a course of the protocol |
| ExecStdin.Serve | driver/exec_utils.go:184-201 | the same of one request |
| ExecSafety.PumpFlows | driver/exec_utils.go:205-277 | one step of a pump keeps every byte accounted for: sent, in hand or in the pipe |
| ExecSafety.FlowsStep | driver/exec_utils.go:94-144 | so does every step of every goroutine, for every stream |
| ExecSafety.SourcedStep | driver/exec_utils.go:118-144 | an error in the channel, or returned, comes from a goroutine that reported it and ended |
| ExecRuns.SafeAfter | driver/exec_utils.go:47-144 | all invariants hold at every moment of every run |
| ExecRuns.NilIffComplete | driver/exec_utils.go:118-144 | if nil is returned, every stream was delivered in full and closed exactly once, and the exit frame was sent after all of it; if nil is not returned, and the error is not the stdin pump's, some stream was not |
| ExecRuns.ExitCodeReported | driver/exec_utils.go:146-172 | in every run every exit frame carries the code of what `processWait` reported: the status of an exited process, 128 and the signal for a killed one, -2 without a process state, -1 for a state that cannot be read |
| ExecRuns.FirstReportReturned | driver/exec_utils.go:84-143 | in every run what is returned is the error that was reported first, nil if and only if none was reported before the select |
| ExecRuns.FramesInOrder | driver/exec_utils.go:205-277 | at every moment the frames of a stream are data of 1 to 4096 bytes and at most one final close, carry a prefix of what was written, and are closed only after all of it |
| ExecRuns.OneSendAtATime | driver/exec_utils.go:95-137 | never two sends at once, in either mode, although the exit frame takes no lock |
| ExecRuns.ReportsNeverBlock | driver/exec_utils.go:62-119 | queued errors and goroutines that may still report never exceed the channel's capacity of three, even after the return |
| ExecRuns.SilentAfterExit | driver/exec_utils.go:83-137 | after the exit frame nothing is sent |
| ExecRuns.MeasureStep | driver/exec_utils.go:103-137 | every step but a client's message and an empty read brings the run closer to its end, failures included |
| ExecRuns.RunsAreBounded | driver/exec_utils.go:103-137 | so in every run, failures included, the number of such steps is at most what its beginning weighs plus the number of the client's messages |
| ExecRuns.NoDeadlock | driver/exec_utils.go:103-137 | before the return there is always a step that needs no failure and nothing from the client, unless a failure has left output behind that nobody reads |
| ExecRuns.NeverStuck | driver/exec_utils.go:103-137 | a run in which no send of output and no read but a closing one has failed never halts before the return, whatever the client and the stdin pump do |
| ExecRuns.ReturnsIffSpared | driver/exec_utils.go:103-143 | in every reachable state `run` can still return if and only if no stream is doomed in that way |

## Left out

- Process execution, fifos, terminals, `pgrep`, `grep` and JSON: answers of the environment. `pot ls -q | grep name`
  answers zero for an existing pot whose name is part of another one's; the model allows that answer like any other.
- Encoding and decoding of driver state and job configuration: taken to be inverse, or to fail.
- Task IDs with fewer than three parts and entries without a colon, on which the source panics: preconditions.
- That a NUL byte in an argument keeps a command from being started: whether one starts is an answer of the environment.
- Unicode outside what `char` holds.
- The goroutine that `exec.Cmd.Wait` runs to copy input to the process: `Wait` can also wait for it, so the statements
  about the end of a streaming run hold as far as the process is not kept by it.
- A cancelled context, which kills the process: it is covered as a process that writes less and ends.
- Failures before the goroutines of a streaming run are spawned (terminal, set-up, launch).
- The text of a failed send or read; the exit frame's oom and signal fields.
- Wall-clock time: a tick is a step that is always possible; `completedAt` and `startedAt` are not kept.
- `InspectTask`, `TaskStats` beyond the launch and its mark on the exit code, `TaskEvents`, `ExecTask`'s output buffers,
  fingerprinting, plugin schema, logging, `shutdown` in `driver/handle.go`, which nobody calls.
- Under a terminal the client's close of its input closes the terminal that the output pump reads: the reads that fail
  then are covered as reads that may fail at any time, but the model does not make them fail, nor the process's writes.
- A read of an exit result by `handleWait` while a waiter writes it: the result is the value at the tick.
- Driver.Driver.StartTask: one caller at a time; what concurrent calls add is in `Lifecycle`, which in turn keeps of the
  create plan only that any number of create commands precede the launch.
- ExecStdin.HandleStdin: a failed write takes an arbitrary part of its data, the input of later messages is not looked at.
