# Atticus server run orchestration, modelled in Dafny

Atticus is a hardware server for cold-atom experiment control. A client hands it the
settings (logical channels bound to hardware channels) and a sequence. The server then
prepares one run at a time:

- **setSettings** resolves which bound channels live on this server.
- **generateBuffers** cleans up the previous run's tasks and builds one task per DAQ
  device, one per GPIB, RFSG and RS232 channel, and an optional variable timebase clock
  task. It also reconciles the terminal routes.
- **armTasks** starts the hardware-triggered and externally clocked DAQ tasks. It hooks
  the software timed tasks to a synchronising device, either through a first-sample-clock
  handler or a buffer-position poll.
- **generateTrigger** optionally waits on a "ready" input, optionally pulses a trigger
  output, and starts everything else in a fixed order.
- **stop**, **shutDown** and **runSuccess** tear the tasks down and report whether a task
  failed.

The model is one class, `ServerRuntime.AtticusServerRuntime`, whose fields are the
runtime's fields. Dictionaries are sequences of key/value pairs in enumeration order.
Every call into the National Instruments drivers that creates, starts, stops, disposes,
commits, generates a buffer, connects, resets or subscribes goes through `Drivers.Driver`.
So does the unguarded read of a new DAQ task's buffer size for a log line (line 695). It
runs after the task is registered, so a throw leaves the task in the registry:

- Its ghost `log` records each call and whether it threw. The outcome is chosen by the
  environment, so every proof holds whatever the hardware does.
- It hands out task handles with fresh ids.

Three other driver reads return a value the model uses. They are inputs of the methods
that make them, and each may throw:

- the buffer position read when arming under the polling method (line 964),
  `initialPosition` of `ArmTasks`, where `None` is a read that throws;
- the buffer positions the poll reads (line 1024), `positions` of
  `SoftwareTaskTriggerPolling`, one per pass, `None` again a throw;
- the ready line read on each pass of the ready wait (line 1215), the `readThrows`,
  `ready` and `abort` fields of each `ReadySample` of `WaitForReady`.

A `try`/`catch` in the source becomes a boolean result. A driver-call sequence is stated
as a plan (`seq<DriverAction>`). The log then either `Completed` the plan or
`StoppedAtFailure` on it: every call before the last one succeeded and the last one threw.

Buffer generation has a richer plan, a sequence of stages (`GenerationPlan.Stage`):

- driver calls that may throw;
- checks of the model's data that throw when they fail, such as a missing dictionary key
  or a key added twice;
- the changes of state between them, such as a task stored in a registry.

A run goes through the stages in order until a call throws or a check fails
(`GenerationPlan.Ran`). The registries after the run are what the stages it reached noted,
whether it got through or not.

The pure decisions are value-level functions with their own lemmas:

| module | contents |
|---|---|
| `ChannelResolution` | channel resolution |
| `BufferPlan` | which devices and channels get tasks |
| `TerminalRouting` | the route-list diff |
| `TriggerPlan` | which tasks are armed and which are triggered, the ready wait, the poll and the handler |
| `CleanupPlan` | the calls and leftovers of a cleanup |
| `GenerationPlan` | the stages of buffer generation, and when a generation succeeds |
| `TextHelpers` | the string helpers |

## Model

All source cells refer to `AtticusServer/ServerRuntime/AtticusServerRuntime.cs`.

| member | source | states |
|---|---|---|
| ChannelResolution.FindChannels | AtticusServer/ServerRuntime/AtticusServerRuntime.cs:1600-1625 | returns the first logical channel bound to this server but missing from its inventory, or none when no such channel exists; the map holds exactly the accepted bindings before that channel |
| ChannelResolution.SelectedMembers | AtticusServer/ServerRuntime/AtticusServerRuntime.cs:1602-1614 | an (id, channel) pair is in the map iff a logical channel with that id has an assigned binding to this server that is in the inventory |
| ChannelResolution.FirstOffender | AtticusServer/ServerRuntime/AtticusServerRuntime.cs:1614-1617 | none iff no binding offends; otherwise the index of an offending binding with no offender before it |
| ChannelResolution.CollectDevices | AtticusServer/ServerRuntime/AtticusServerRuntime.cs:1578-1591 | the used-device list is the device names of the analog map, then of the digital map, each kept at its first occurrence: no duplicates, exactly the device names of both maps, and in order of first occurrence |
| ChannelResolution.FirstOccurrencesOrder | AtticusServer/ServerRuntime/AtticusServerRuntime.cs:1582-1591 | keeping first occurrences keeps every element of the list exactly once, ordered so that each element is met in the list before the next one first occurs |
| ChannelResolution.NameListMembers | AtticusServer/ServerRuntime/AtticusServerRuntime.cs:1578-1591 | the names listed for the two maps are exactly the device names of either map |
| ChannelResolution.DeviceHasUsedChannels | AtticusServer/ServerRuntime/AtticusServerRuntime.cs:648-663 | true iff some used digital or analog channel is on the device, comparing names case-insensitively |
| ChannelResolution.ScanTimebaseChannel | AtticusServer/ServerRuntime/AtticusServerRuntime.cs:313-331 | reports a collision iff a used digital channel's upper-cased physical name is the timebase channel; without a collision, reports whether a used digital channel shares the timebase device |
| ServerRuntime.AtticusServerRuntime.FindMyChannels | AtticusServer/ServerRuntime/AtticusServerRuntime.cs:1534-1592 | resolves analog, digital, GPIB and RS232 in that order; the failing category is the first with an offender, its map holds the bindings accepted before the offender and the later maps stay empty; only a full resolution rebuilds the device list, as the first occurrences of the analog then digital device names |
| ServerRuntime.AtticusServerRuntime.SetSettings | AtticusServer/ServerRuntime/AtticusServerRuntime.cs:1354-1364 | the settings are stored; success iff no category has an offending binding; every channel map is stated in both cases (the partial maps of a failed resolution included); the device list is rebuilt on success and untouched on failure |
| ServerRuntime.AtticusServerRuntime.SetSequence | AtticusServer/ServerRuntime/AtticusServerRuntime.cs:1344-1352 | the sequence is stored and the call reports success |
| ServerRuntime.AtticusServerRuntime.ATaskFinished | AtticusServer/ServerRuntime/AtticusServerRuntime.cs:555-583 | the error flag is raised by a task that ended with an error and is otherwise unchanged |
| ServerRuntime.AtticusServerRuntime.RunSuccess | AtticusServer/ServerRuntime/AtticusServerRuntime.cs:585-608 | fails (null registry) iff no cleanup ran yet; otherwise reports success iff no task error was recorded |
| CleanupPlan.StopDisposeShape | AtticusServer/ServerRuntime/AtticusServerRuntime.cs:1395-1451 | the guarded phase issues, for each task in order, a stop followed by its dispose, and nothing else |
| CleanupPlan.StopDisposeEach | AtticusServer/ServerRuntime/AtticusServerRuntime.cs:1395-1451 | every guarded stop and dispose is attempted whatever the earlier outcomes; the result is true iff all of them succeeded |
| CleanupPlan.CleanupOutcome | AtticusServer/ServerRuntime/AtticusServerRuntime.cs:1393-1503 | a cleanup log completes its plan iff every guarded call succeeded and the unguarded stops completed |
| CleanupPlan.EscapedAt | AtticusServer/ServerRuntime/AtticusServerRuntime.cs:1456-1494 | none iff no stop of a GPIB, RS232 or RFSG task threw; otherwise the index of the stop that threw, which is the last call made |
| CleanupPlan.FailedStopStaysRegistered | AtticusServer/ServerRuntime/AtticusServerRuntime.cs:1464-1494 | after a failing stop, the tasks still registered are a suffix of the stop order that contains the failed task |
| CleanupPlan.RegistriesAfterUnique | AtticusServer/ServerRuntime/AtticusServerRuntime.cs:1467-1493 | whatever a cleanup leaves in the registries still holds each key once |
| CleanupPlan.CleanupComposed | AtticusServer/ServerRuntime/AtticusServerRuntime.cs:1393-1503 | a guarded phase followed by a completed or failed unguarded phase is a cleanup log whose escape index is that of the unguarded phase |
| CleanupPlan.CleanedUpFromPhases | AtticusServer/ServerRuntime/AtticusServerRuntime.cs:1393-1503 | the two phases give the whole cleanup: success iff all guarded calls succeeded and nothing escaped; the error flag is cleared iff nothing escaped |
| ServerRuntime.CleanupAssembled | AtticusServer/ServerRuntime/AtticusServerRuntime.cs:1389-1511 | the two logged phases, with the result and the flag the method gives them, make up one cleanup |
| ServerRuntime.CleanupLeaves | AtticusServer/ServerRuntime/AtticusServerRuntime.cs:1389-1511 | the registries a cleanup leaves keep the registry invariant; a successful cleanup empties them and clears the error flag |
| ServerRuntime.AtticusServerRuntime.StopGuardedTasks | AtticusServer/ServerRuntime/AtticusServerRuntime.cs:1395-1454 | the timebase task, then each DAQ task, is stopped and disposed; both registries end empty and non-null |
| ServerRuntime.AtticusServerRuntime.StopSoftwareTimedTasks | AtticusServer/ServerRuntime/AtticusServerRuntime.cs:1456-1494 | GPIB, RS232 and RFSG tasks are stopped in order; a throwing stop ends the phase, and only fully stopped registries are cleared |
| ServerRuntime.AtticusServerRuntime.StopRs232AndRfsgTasks | AtticusServer/ServerRuntime/AtticusServerRuntime.cs:1470-1494 | the RS232 then RFSG stops complete or stop at the first failure; a registry is cleared only after all its stops succeeded |
| ServerRuntime.AtticusServerRuntime.StopAndCleanupTasks | AtticusServer/ServerRuntime/AtticusServerRuntime.cs:1389-1511 | the log is one cleanup of the old registries; it leaves the timebase and DAQ registries empty; success implies every registry is empty and the error flag is cleared; the registry invariant is kept |
| BufferPlan.DaqTaskDevicesMembers | AtticusServer/ServerRuntime/AtticusServerRuntime.cs:408-415 | a device gets a DAQ task iff it is a used device with settings that is enabled and has used channels; a duplicate-free device list gives one task per device |
| ServerRuntime.AtticusServerRuntime.GenerateDaqMxTaskOnDevice | AtticusServer/ServerRuntime/AtticusServerRuntime.cs:671-707 | the run is that of the device's stages, and the registry gains what they noted: missing settings fail before any call; an unselected device changes nothing; a selected device's task is created, subscribed, registered under its name (a name already registered fails) and its buffer size read; success iff the settings exist and, for a selected device, every call returned and the name was new; a throwing size read leaves the task registered |
| ServerRuntime.AtticusServerRuntime.CreateDaqMxTask | AtticusServer/ServerRuntime/AtticusServerRuntime.cs:684-695 | the events are the create, subscribe and size read the code reaches; success iff the create and the read returned and the name was new; the task is registered iff it was created under a new name |
| ServerRuntime.AtticusServerRuntime.GenerateDaqMxTasks | AtticusServer/ServerRuntime/AtticusServerRuntime.cs:408-415 | the run is that of the DAQ loop's stages over the device list, ending at the first device that fails, and the registry gains exactly what the devices reached noted, on failure as well; on success every used device had settings and the registry gained exactly the selected devices, in order, with fresh DAQ tasks |
| BufferPlan.RolesPartition | AtticusServer/ServerRuntime/AtticusServerRuntime.cs:456-488 | every used GPIB channel has exactly one role (plain GPIB, RFSG masquerade, or unconfigured masquerade); the plain and RFSG roles are characterised by the masquerade bits |
| ServerRuntime.AtticusServerRuntime.GenerateGpibTask | AtticusServer/ServerRuntime/AtticusServerRuntime.cs:458-487 | the run is that of the channel's stages by role: a plain channel's task is created, its device's settings looked up, its buffer generated, subscribed and registered; an RFSG masquerade's settings are looked up, then its task created, subscribed and registered; a masquerade of type NONE is only reported; success iff every lookup found its key, every call returned and the channel was new; a failure changes no registry |
| ServerRuntime.AtticusServerRuntime.CreateGpibTask | AtticusServer/ServerRuntime/AtticusServerRuntime.cs:463-469 | the events are the create, buffer generation and subscription reached; success iff the create and buffer generation returned, the device's settings exist and the channel is new; the GPIB registry gains the task exactly on success |
| ServerRuntime.AtticusServerRuntime.CreateRfsgTask | AtticusServer/ServerRuntime/AtticusServerRuntime.cs:481-483 | no call without the device's settings; otherwise the events are the create and, when it returned, the subscription; success iff the settings exist, the create returned and the channel is new; the RFSG registry gains the task exactly on success |
| ServerRuntime.AtticusServerRuntime.GenerateGpibTasks | AtticusServer/ServerRuntime/AtticusServerRuntime.cs:456-488 | the run is that of the GPIB loop's stages, ending at the first channel that fails, and the GPIB and RFSG registries and the reported ids gain exactly what the channels reached noted, on failure as well; on success the GPIB registry gained exactly the plain channels, the RFSG registry exactly the RFSG masquerades, and every unconfigured masquerade was reported |
| ServerRuntime.AtticusServerRuntime.GenerateRS232Task | AtticusServer/ServerRuntime/AtticusServerRuntime.cs:496-507 | the run is that of the channel's stages: the session and task are created, the "Serial" settings looked up, the buffer generated, the task subscribed and registered; success iff the settings exist, every call returned and the channel is new; a failure leaves the registry unchanged |
| ServerRuntime.AtticusServerRuntime.CreateRS232Task | AtticusServer/ServerRuntime/AtticusServerRuntime.cs:500-507 | the events are the create, buffer generation and subscription reached; success iff the create and buffer generation returned, the "Serial" settings exist and the channel is new; the registry gains the task exactly on success |
| ServerRuntime.AtticusServerRuntime.GenerateRS232Tasks | AtticusServer/ServerRuntime/AtticusServerRuntime.cs:493-509 | the run is that of the RS232 loop's stages, ending at the first channel that fails, and the registry gains exactly what the channels reached noted, on failure as well; on success it gained exactly the used RS232 channels; with a used channel and no "Serial" settings it fails |
| BufferPlan.WithoutIds | AtticusServer/ServerRuntime/AtticusServerRuntime.cs:351-370 | the digital map keeps exactly the entries whose ids the combined generator did not consume |
| BufferPlan.RecapitalisationKeepsDevNames | AtticusServer/ServerRuntime/AtticusServerRuntime.cs:345-349 | for every channel on a device named "Dev" followed by digits, the as-written recapitalisation gives back the device name |
| BufferPlan.RecapitalisationMissesOtherNames | AtticusServer/ServerRuntime/AtticusServerRuntime.cs:345-365 | the as-written recapitalisation turns "cDAQ1Mod1" into "cDaq1moD1", which is not the stored name, so the settings lookup misses it |
| BufferPlan.TimebaseDeviceKey | AtticusServer/ServerRuntime/AtticusServerRuntime.cs:345-365 | corrected lookup: a stored key that is case-insensitively the timebase device, or none exactly when no key is |
| BufferPlan.TimebaseDeviceKeyFindsStoredName | AtticusServer/ServerRuntime/AtticusServerRuntime.cs:345-365 | for every device stored under its own name, in any mix of cases, the corrected lookup finds a key equal to it case-insensitively |
| BufferPlan.UpperOfRecapitalised | AtticusServer/ServerRuntime/AtticusServerRuntime.cs:345-349 | upper-casing forgets the recapitalisation: the as-written name and the parsed one agree case-insensitively |
| BufferPlan.CorrectedKeyCoversAsWritten | AtticusServer/ServerRuntime/AtticusServerRuntime.cs:345-365 | every timebase device whose settings the as-written lookup finds, the corrected lookup finds as well |
| ServerRuntime.AtticusServerRuntime.GenerateTimebaseTask | AtticusServer/ServerRuntime/AtticusServerRuntime.cs:307-403 | no timebase channel leaves the task null and calls nothing; a collision, or a shared device whose as-written recapitalised name has no settings, fails before any driver call; otherwise the task is created and subscribed, and success iff the create returned; the consumed digital channels are taken out only on the shared-device path and only on success; a failure leaves the task and the digital map; the run is that of the timebase stages |
| TerminalRouting.Stale | AtticusServer/ServerRuntime/AtticusServerRuntime.cs:721-728 | the pairs disconnected are exactly the made pairs no longer desired |
| TerminalRouting.Kept | AtticusServer/ServerRuntime/AtticusServerRuntime.cs:721-728 | the pairs left after removal are exactly the made pairs still desired |
| TerminalRouting.AppendMissingExtends | AtticusServer/ServerRuntime/AtticusServerRuntime.cs:732-739 | the adding pass only appends, pairs it appends are new and distinct, and afterwards the list holds the old pairs and the desired ones |
| TerminalRouting.ReconciledContents | AtticusServer/ServerRuntime/AtticusServerRuntime.cs:709-740 | after reconciliation exactly the desired pairs are in the made list |
| TerminalRouting.ReconciledNoDup | AtticusServer/ServerRuntime/AtticusServerRuntime.cs:709-740 | a duplicate-free made list stays duplicate-free |
| TerminalRouting.ReconcileActionsTargets | AtticusServer/ServerRuntime/AtticusServerRuntime.cs:709-740 | every disconnect is of a made pair no longer desired, and every connect is of a desired pair not yet made |
| TerminalRouting.ReconcileWhenInSync | AtticusServer/ServerRuntime/AtticusServerRuntime.cs:709-740 | a made list that already holds exactly the desired pairs costs no driver call and is unchanged |
| TerminalRouting.ReconcileIdempotent | AtticusServer/ServerRuntime/AtticusServerRuntime.cs:709-740 | a second reconciliation makes no driver call and changes nothing |
| TerminalRouting.RemoveFirstAfter | AtticusServer/ServerRuntime/AtticusServerRuntime.cs:726 | `List.Remove` drops the first occurrence: a pair absent from `a` and heading `b` is removed from `a + b` exactly at that head |
| TerminalRouting.PassesCompose | AtticusServer/ServerRuntime/AtticusServerRuntime.cs:709-740 | a failed removal pass, or a completed one followed by a completed or failed adding pass, completes or stops on the whole reconciliation plan |
| ServerRuntime.AtticusServerRuntime.DisconnectStale | AtticusServer/ServerRuntime/AtticusServerRuntime.cs:715-728 | disconnects the stale pairs in order and leaves the kept list; a throwing disconnect at a stale pair of the walked copy leaves the kept pairs before it followed by the unwalked rest, after one event per earlier stale pair and the failed one |
| ServerRuntime.AtticusServerRuntime.ConnectMissing | AtticusServer/ServerRuntime/AtticusServerRuntime.cs:730-739 | connects the desired pairs not yet present in order and appends them; a throwing connect at a desired pair leaves the list with the pairs appended before it, after one event per earlier connect and the failed one |
| ServerRuntime.AtticusServerRuntime.MakeTerminalConnections | AtticusServer/ServerRuntime/AtticusServerRuntime.cs:709-740 | on success the made list is the reconciled one and the log completes the reconciliation plan; otherwise the log stops at the first failure of that plan and the made list is the one the failing pass left, at the pair it stopped at |
| ServerRuntime.AtticusServerRuntime.UnmakeTerminalConnections | AtticusServer/ServerRuntime/AtticusServerRuntime.cs:743-752 | every made pair is disconnected in order and then the list is cleared; a throwing disconnect leaves the list |
| ServerRuntime.AtticusServerRuntime.ResetAllDevices | AtticusServer/ServerRuntime/AtticusServerRuntime.cs:1513-1528 | every listed device is reset in order, then the made list is cleared; a throwing reset leaves the list |
| GenerationPlan.RanOutcome | AtticusServer/ServerRuntime/AtticusServerRuntime.cs:297-538 | a run of stages gets through iff every check of its plan passes and every driver call it made returned |
| GenerationPlan.TimebaseRun | AtticusServer/ServerRuntime/AtticusServerRuntime.cs:307-403 | the timebase stages: nothing without a timebase channel; no call when the collision or settings check fails; otherwise a create, and after one that returned a subscription; the task is noted iff the checks pass and the create returned |
| GenerationPlan.DaqDeviceRun | AtticusServer/ServerRuntime/AtticusServerRuntime.cs:676-707 | one device's stages: success iff the settings exist and, for a selected device, the create and size read returned and the name was new; the task is noted iff it was created under a new name, so a throwing size read leaves it noted |
| GenerationPlan.PlainGpibRun | AtticusServer/ServerRuntime/AtticusServerRuntime.cs:463-469 | a plain GPIB channel's stages: success iff the create and buffer generation returned, the device's settings exist and the channel is new; the task is noted exactly on success |
| GenerationPlan.RfsgRun | AtticusServer/ServerRuntime/AtticusServerRuntime.cs:479-484 | an RFSG masquerade's stages: success iff the settings exist, the create returned and the channel is new; the task is noted exactly on success |
| GenerationPlan.UnconfiguredRun | AtticusServer/ServerRuntime/AtticusServerRuntime.cs:476-478 | a masquerade of type NONE calls nothing, always gets through, and only reports its id |
| GenerationPlan.Rs232ChannelRun | AtticusServer/ServerRuntime/AtticusServerRuntime.cs:496-507 | an RS232 channel's stages: success iff the create and buffer generation returned, the "Serial" settings exist and the channel is new; the task is noted exactly on success |
| GenerationPlan.CallsRan | AtticusServer/ServerRuntime/AtticusServerRuntime.cs:516 | a plan of driver calls alone gets through iff its log completes the plan, stops iff the log stops at a failure, and notes nothing |
| GenerationPlan.DaqLoopChecks | AtticusServer/ServerRuntime/AtticusServerRuntime.cs:408-415 | the DAQ loop's checks pass iff every device on the list has settings and no selected device is registered twice |
| GenerationPlan.GpibLoopChecks | AtticusServer/ServerRuntime/AtticusServerRuntime.cs:456-488 | the GPIB loop's checks pass iff every channel that gets a task has device settings and no plain or RFSG channel is registered twice |
| GenerationPlan.Rs232LoopChecks | AtticusServer/ServerRuntime/AtticusServerRuntime.cs:493-509 | the RS232 loop's checks pass iff "Serial" settings exist whenever there is a channel, and no channel is registered twice |
| GenerationPlan.GenerationChecks | AtticusServer/ServerRuntime/AtticusServerRuntime.cs:307-516 | the checks of the whole generation pass iff: the timebase channel is not refused and a shared timebase device has settings under the as-written key; the device list exists; every used device has settings; no DAQ, GPIB, RFSG or RS232 key is added twice; every GPIB and RFSG channel with a task has device settings; and "Serial" settings exist when there are RS232 channels |
| GenerationPlan.DeviceOutcome | AtticusServer/ServerRuntime/AtticusServerRuntime.cs:307-450 | the timebase and DAQ part gets through iff its data conditions hold and no driver call it made threw |
| GenerationPlan.ChannelOutcome | AtticusServer/ServerRuntime/AtticusServerRuntime.cs:454-516 | the GPIB, RS232 and routing part gets through iff the GPIB and RS232 data conditions hold and no driver call it made threw |
| GenerationPlan.GenerationOutcome | AtticusServer/ServerRuntime/AtticusServerRuntime.cs:297-538 | generation gets through iff every data condition holds and no driver call it made threw, which is the Success / Failed_Invalid_Data split of the catch at line 535 |
| ServerRuntime.AtticusServerRuntime.GenerateTasksAndRoutes | AtticusServer/ServerRuntime/AtticusServerRuntime.cs:307-516 | the run is that of the whole generation's stages on the old state: success iff every data condition of generation holds and no driver call threw; every registry and the reported ids are what the stages reached noted, on failure as well; success gives the full generated state |
| ServerRuntime.AtticusServerRuntime.GenerateUsedDeviceTasks | AtticusServer/ServerRuntime/AtticusServerRuntime.cs:408-415 | after a timebase step that got through and with a device list, the DAQ loop completes the device part's run, with the DAQ registry as noted; success gives one DAQ task per selected device |
| ServerRuntime.AtticusServerRuntime.GenerateDeviceTasks | AtticusServer/ServerRuntime/AtticusServerRuntime.cs:307-450 | timebase then DAQ tasks: the run is that of the device stages, success iff the device data conditions hold and no call threw, the timebase task and DAQ registry as noted; a refused timebase channel or a missing device list fails; success gives one DAQ task per selected device and a timebase task iff a timebase channel is set |
| ServerRuntime.AtticusServerRuntime.GenerateChannelTasksAndRoutes | AtticusServer/ServerRuntime/AtticusServerRuntime.cs:454-516 | GPIB/RFSG, then RS232, then routes: the run is that of the channel stages, success iff the GPIB and RS232 data conditions hold and no call threw, the registries and reported ids as noted; success gives one task per used channel of each role and reconciled routes |
| ServerRuntime.AtticusServerRuntime.GenerateSerialTasksAndRoutes | AtticusServer/ServerRuntime/AtticusServerRuntime.cs:493-516 | after a GPIB loop that got through, the RS232 loop then the routes complete the channel part's run; success gives one task per used RS232 channel and reconciled routes |
| ServerRuntime.AtticusServerRuntime.MakeRoutesAfterChannelTasks | AtticusServer/ServerRuntime/AtticusServerRuntime.cs:516 | after both channel loops got through, the reconciliation's calls complete the channel part's run; success gives reconciled routes |
| ServerRuntime.AtticusServerRuntime.GenerateAfterCleanup | AtticusServer/ServerRuntime/AtticusServerRuntime.cs:292-538 | Failed_Settings_Null iff no settings; Failed_Sequence_Null iff settings but no sequence; both null codes call nothing and change nothing; with both set, the generation stages run on the old state and the status is Success iff every data condition holds and no driver call threw, else Failed_Invalid_Data, with every registry as the run noted; Success gives the full generated state |
| ServerRuntime.AtticusServerRuntime.GenerateBuffers | AtticusServer/ServerRuntime/AtticusServerRuntime.cs:280-542 | Failed_Buffer_Underrun iff the cleanup failed, which leaves the failed cleanup's state; after a cleanup that succeeded the codes follow the order above, and with settings and sequence set the status is Success iff every data condition of generation holds and no driver call after the cleanup threw, with every registry as the generation run noted on failure as well; Success implies one task per selected device and channel, the timebase task iff configured, and reconciled routes; the registry invariant is kept |
| TriggerPlan.ArmedTasksMembers | AtticusServer/ServerRuntime/AtticusServerRuntime.cs:918-927 | a task is armed iff it belongs to a device that is hardware triggered or software triggered with an external clock |
| TriggerPlan.ArmActionsStartArmedTasks | AtticusServer/ServerRuntime/AtticusServerRuntime.cs:918-975 | the arming loop starts exactly the armed tasks, in the order of the device settings |
| TriggerPlan.ArmActionsSubscribeOnlySync | AtticusServer/ServerRuntime/AtticusServerRuntime.cs:930-940 | the handler is subscribed only with the sample-clock method and only to the synchronising device's task |
| TriggerPlan.ArmActionsPrefix | AtticusServer/ServerRuntime/AtticusServerRuntime.cs:918-975 | the driver calls for a prefix of the device settings begin the calls for all of them |
| ServerRuntime.AtticusServerRuntime.StartArmedTask | AtticusServer/ServerRuntime/AtticusServerRuntime.cs:930-942 | with `subscribe` the handler is subscribed before the start, which is then attempted |
| ServerRuntime.AtticusServerRuntime.StartPolling | AtticusServer/ServerRuntime/AtticusServerRuntime.cs:944-968 | the recorded buffer position is read: a read that returns starts a poll from it, a read that throws leaves the polling state unchanged |
| ServerRuntime.AtticusServerRuntime.ArmTask | AtticusServer/ServerRuntime/AtticusServerRuntime.cs:928-968 | the task of an armed device: the handler subscribed and the triggering task set under the sample-clock method, the start, then under the polling method the triggering task set and the position read; a throwing start or read stops the arming there, with the polling state unchanged |
| TriggerPlan.ArmStoppedAtStart | AtticusServer/ServerRuntime/AtticusServerRuntime.cs:942 | a start that throws stops the arming plan at that device, with the triggering task as set before the start |
| TriggerPlan.ArmStoppedAtRead | AtticusServer/ServerRuntime/AtticusServerRuntime.cs:944-968 | a position read that throws after the synchronising task started stops the arming at that device with every call so far successful and that task as triggering task |
| ServerRuntime.AtticusServerRuntime.ArmDevice | AtticusServer/ServerRuntime/AtticusServerRuntime.cs:920-973 | an armed device's task is started and counted; a device that is not armed is skipped; on a failure the arming stopped at this device, at its start or at its position read, with the polling state unchanged |
| ServerRuntime.AtticusServerRuntime.ArmDevices | AtticusServer/ServerRuntime/AtticusServerRuntime.cs:918-975 | all devices walked with all calls ok and the polling state set, or stopped at the device whose start or position read threw, with the triggering task and polling state as the walk left them; with no device nothing happens |
| ServerRuntime.AtticusServerRuntime.ArmAndCommit | AtticusServer/ServerRuntime/AtticusServerRuntime.cs:918-982 | the device loop then the commit, once the DAQ registry can be looked up: the same outcomes as `armTasks` after its reset |
| ServerRuntime.AtticusServerRuntime.CommitTimebase | AtticusServer/ServerRuntime/AtticusServerRuntime.cs:979-982 | after the loop, committing the timebase task completes or stops the arming plan; on success the armed count is that of the plan; with no timebase task nothing is called |
| ServerRuntime.AtticusServerRuntime.ArmTasks | AtticusServer/ServerRuntime/AtticusServerRuntime.cs:899-992 | the handler state is reset; a null DAQ registry fails iff there is a device, and then nothing is called; success completes the arming plan with the armed count, the synchronising task as triggering task and the polling state; a failure states the device it stopped at, whether the position read threw, the triggering task and the polling state, or a throwing commit after every device |
| TriggerPlan.FirstPollExit | AtticusServer/ServerRuntime/AtticusServerRuntime.cs:1022-1047 | the first pass whose read throws or differs from the recorded position, or none iff every read returns the recorded position |
| ServerRuntime.AtticusServerRuntime.SoftwareTaskTriggerPolling | AtticusServer/ServerRuntime/AtticusServerRuntime.cs:1007-1067 | no triggering task throws before any call; otherwise the loop ends at the first read that throws or differs from the recorded position, or never; a throw starts nothing and keeps the thread reference; a moved position starts the software timed tasks (completed: thread reference cleared, failed: stopped at the first failure) |
| TriggerPlan.FirstSampleClockOnly | AtticusServer/ServerRuntime/AtticusServerRuntime.cs:1079-1117 | after arming resets the handler, n events start the software timed tasks exactly once and count the other n-1 (wrapped to 32 bits) |
| ServerRuntime.AtticusServerRuntime.TriggerSoftwareTimedTasks | AtticusServer/ServerRuntime/AtticusServerRuntime.cs:1079-1117 | the first call unsubscribes and starts the GPIB, RS232 and RFSG tasks (complete or stopped at the first failure); later calls only count and report every tenth; with no triggering task the first call fails and changes nothing |
| TriggerPlan.WaitForReadyInput | AtticusServer/ServerRuntime/AtticusServerRuntime.cs:1214-1236 | the loop stops at the first pass whose read throws, whose line is ready, with an abort, or past a positive timeout; the outcome ranks the throw, abort, ready, then the timeout policy; no such pass means still waiting |
| TriggerPlan.FirstEnd | AtticusServer/ServerRuntime/AtticusServerRuntime.cs:1216-1236 | none iff no observed pass ends the wait; otherwise a pass that ends it |
| TriggerPlan.ReadyWaitGate | AtticusServer/ServerRuntime/AtticusServerRuntime.cs:1201-1252 | with a ready input and a waiting sequence, the run goes on iff the reader was created and disposed without a throw and the wait ended ready or on a run-anyway timeout; a wait still running never lets it go on; a read that throws refuses the run with the reader undisposed and the running flag set |
| ServerRuntime.AtticusServerRuntime.WaitForReady | AtticusServer/ServerRuntime/AtticusServerRuntime.cs:1201-1252 | the events and wait flags are those of the ready block: nothing without a ready input or a waiting sequence, failure with a null sequence, else create, wait, and dispose unless a read threw |
| ServerRuntime.AtticusServerRuntime.EndReadyWait | AtticusServer/ServerRuntime/AtticusServerRuntime.cs:1216-1249 | after a wait whose reads returned, the reader is disposed; a timeout that aborts clears the running flag only if the dispose returned, otherwise the flag is cleared and the last abort request kept; the run goes on iff the outcome runs and the dispose returned |
| TriggerPlan.SoftTasksMembers | AtticusServer/ServerRuntime/AtticusServerRuntime.cs:1158-1181 | a task is soft-triggered in a phase iff its device is software triggered from the internal clock and has that phase's "last" flag |
| TriggerPlan.TriggerStartsOrder | AtticusServer/ServerRuntime/AtticusServerRuntime.cs:1284-1324 | the starts are the first-phase DAQ tasks, the software timed tasks when no triggering task exists, the last-phase DAQ tasks, then the timebase task; no armed DAQ task is started again |
| TriggerPlan.EachDaqTaskStartedOnce | AtticusServer/ServerRuntime/AtticusServerRuntime.cs:918-927 | across arming and triggering, every DAQ task of a configured device is started in exactly one of arming, the first phase and the last phase |
| ServerRuntime.AtticusServerRuntime.Fire | AtticusServer/ServerRuntime/AtticusServerRuntime.cs:1254-1324 | the trigger pulse (when an output channel is set) and then the starts complete, or stop at the first throwing call |
| ServerRuntime.AtticusServerRuntime.GenerateTrigger | AtticusServer/ServerRuntime/AtticusServerRuntime.cs:1139-1341 | null registries fail before any call; the ready block runs; unless it lets the run go on, its verdict is the result; otherwise the pulse and starts complete (true) or stop at the first failure (false) |
| ServerRuntime.AtticusServerRuntime.Stop | AtticusServer/ServerRuntime/AtticusServerRuntime.cs:1366-1385 | a running ready wait gets the abort request; the log is one cleanup of the old registries, whose result is dropped |
| ServerRuntime.AtticusServerRuntime.ShutDown | AtticusServer/ServerRuntime/AtticusServerRuntime.cs:1119-1133 | one cleanup, then resets of the listed devices that complete (made list cleared) or stop at the first failure (made list unchanged) |
| TextHelpers.JustTheChannelName | AtticusServer/ServerRuntime/AtticusServerRuntime.cs:2000-2003 | defined iff the full name is longer than the device name; then it is the full name after the device name and one separator |
| TextHelpers.ChannelNameOfPhysicalName | AtticusServer/ServerRuntime/AtticusServerRuntime.cs:2000-2003 | stripping a channel's device name from its physical name gives its channel name |
| TextHelpers.EscapeRoundTrip | AtticusServer/ServerRuntime/AtticusServerRuntime.cs:1990-1998 | unescaping an escaped string gives it back when it holds no literal backslash-n or backslash-r |
| TextHelpers.EscapeRoundTripNeedsNoLiteralEscapes | AtticusServer/ServerRuntime/AtticusServerRuntime.cs:1990-1998 | the condition is needed: a literal backslash-n comes back as a line feed |
| TextHelpers.InsertRemovesLineBreaks | AtticusServer/ServerRuntime/AtticusServerRuntime.cs:1995-1998 | the escaped string holds no line feed or carriage return |
| TextHelpers.InsertIsEscapedAll | AtticusServer/ServerRuntime/AtticusServerRuntime.cs:1995-1998 | the two whole-string replacements act character by character |

## Left out

- Remoting, the remote lock, the marshalling of the communicator, logging, `ping`,
  `getServerName`, `getHardwareChannels`, `getServerSettings`, `nextRunTimeStamp`,
  `refreshHardwareLists` and the constructor's connect-on-startup. These are
  communication and inventory plumbing, not run orchestration. The inventory and the
  server settings are constructor inputs, and the settings are constants because the
  core never reassigns them.
- `outputSingleTimestep`, `outputGPIBGroup`, `outputRS232Group`: direct-output requests
  outside the run cycle.
- The multi-threaded DAQ generation branch (lines 416-448). Only the sequential branch is
  modelled, since threads and `Thread.Abort` have no counterpart here.
- The driver internals: `DaqMxTaskGenerator`, `GpibTask.generateBuffer`, `RS232Task`,
  `RfsgTask`, the VISA serial session (`getSerialSession` only opens a session, which is
  `CreateTask` here), and the NI device objects. Each call is one logged driver action
  that may throw.
  - Creating the trigger-output task and its two writes are one `PulseTrigger` action.
  - Subscribing and unsubscribing handlers never throw.
- GenerateTimebaseTask: the digital channels the combined timebase generator consumes are
  external code. They are an input, `consumed`, rather than computed.
- The polling thread's lock acquisition (`TryEnter`), the abort of an already running
  polling thread, and a `ThreadAbortException`. Thread states are not modelled: starting
  a poll is the `pollingPending` flag plus the recorded position.
- TriggerSoftwareTimedTasks, SoftwareTaskTriggerPolling: both require that a cleanup has
  run (`tasksAllocated`). The handler and the poll only run after `armTasks` found a DAQ
  task, so the null-registry exception of a call before any cleanup is not modelled.
- The ready wait reads the clock and the input line. These are given as the sequence of
  passes the loop observes (`samples`); each read of the line may throw. A wait that has
  not ended within them is `None`. The poll's buffer-position reads are given the same
  way (`positions`).
- `sequence.ListIterationNumber`, the garbage-collector calls, and the buffer-status
  messages of `runSuccess`.
- The timebase task's buffer-size read for a log line (line 396). A throw there is caught
  and only logged, so it changes nothing the model states.
- ShutDown, Stop: they discard the cleanup's result. Their contracts state the cleanup
  through `exists cleaned :: CleanedUp(...)` rather than naming the result.
- Some definitions are not in the source files. `HardwareChannel.physicalChannelName` is
  taken as "device/channel" and `parseDeviceNameStringFromPhysicalChannelString` as the
  text before the first '/'. `ToUpper` and `ToLower` are ASCII-only. The trigger-method
  enum has the two members the source uses.
- A task created before a later step of its generation throws (a repeated registry key, failing
  buffer generation) is neither disposed nor registered, as in the source; the driver-side
  resources it holds are not modelled.

Two behaviours of the code that are easy to miss, and that the model keeps:

- A failed channel resolution keeps the maps filled before the offending category (it is
  not all-or-nothing).
- The buffer-position poll starts the software timed tasks without setting the handler's
  "triggered" flag.

## Findings

| source | as written | input that shows it | evidently intended | confidence | as-written member | corrected member |
|---|---|---|---|---|---|---|
| AtticusServer/ServerRuntime/AtticusServerRuntime.cs:345-365 | the timebase device name is lower-cased, every 'd' becomes 'D', and the result is the key for the device settings | timebase channel "cDAQ1Mod1/port0" shared with a used digital channel, settings stored under "cDAQ1Mod1": the key becomes "cDaq1moD1", the lookup throws and generation fails with Failed_Invalid_Data | find the settings of the timebase channel's device, comparing names case-insensitively as the rest of generation does | not executed | BufferPlan.RecapitalisationMissesOtherNames | BufferPlan.TimebaseDeviceKey |

`ServerRuntime.AtticusServerRuntime.GenerateTimebaseTask` keeps the lookup as written, so
generation fails for such a device as the code does. `BufferPlan.CorrectedKeyCoversAsWritten`
shows that the corrected search finds every device the as-written key finds, and
`BufferPlan.TimebaseDeviceKeyFindsStoredName` shows that it also finds those the
as-written key misses.
