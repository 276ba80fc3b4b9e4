/** The run orchestration of an Atticus hardware server: the object that resolves which
    channels of the settings live on this server, builds one task per device and channel
    kind before a run, arms and triggers them, and tears them down afterwards. Driver calls
    go through `driver`, whose ghost log records each call and whether it threw. */
module ServerRuntime {
  import opened Common
  import opened Hardware
  import opened Drivers
  import opened ChannelResolution
  import opened BufferPlan
  import opened TerminalRouting
  import opened TriggerPlan
  import opened CleanupPlan
  import opened GenerationPlan

  /** Each registry holds a key once, the registries are empty while still null, and the DAQ
      registry holds distinct tasks, all handed out by the driver before `nextId`. */
  predicate RegistriesValid(live: bool, vt: Option<TaskHandle>, daq: seq<(string, TaskHandle)>,
                            gpib: seq<(HardwareChannel, TaskHandle)>, rs232: seq<(HardwareChannel, TaskHandle)>,
                            rfsg: seq<(HardwareChannel, TaskHandle)>, nextId: nat)
  {
    && UniqueKeys(daq) && UniqueKeys(gpib) && UniqueKeys(rs232) && UniqueKeys(rfsg)
    && (!live ==> daq == [] && gpib == [] && rs232 == [] && rfsg == [] && vt.None?)
    && NoDup(Values(daq))
    && (forall i :: 0 <= i < |daq| ==> daq[i].1.id < nextId)
  }

  /** The registries a cleanup leaves behind keep `RegistriesValid`. */
  lemma CleanedRegistriesValid(gpib: seq<(HardwareChannel, TaskHandle)>, rs232: seq<(HardwareChannel, TaskHandle)>,
                               rfsg: seq<(HardwareChannel, TaskHandle)>, escaped: Option<nat>,
                               live: bool, vt: Option<TaskHandle>, daq: seq<(string, TaskHandle)>,
                               g: seq<(HardwareChannel, TaskHandle)>, r: seq<(HardwareChannel, TaskHandle)>,
                               f: seq<(HardwareChannel, TaskHandle)>, nextId: nat)
    requires UniqueKeys(gpib) && UniqueKeys(rs232) && UniqueKeys(rfsg)
    requires live && vt.None? && daq == []
    requires (g, r, f) == RegistriesAfter(gpib, rs232, rfsg, escaped)
    ensures RegistriesValid(live, vt, daq, g, r, f, nextId)
  {
    RegistriesAfterUnique(gpib, rs232, rfsg, escaped);
  }

  /** A cleanup's two phases, logged one after the other, make up `CleanedUp`, and they leave
      registries that keep `RegistriesValid`; a cleanup no `stop()` escaped empties them. */
  lemma CleanupAssembled(start: seq<DriverEvent>, mid: seq<DriverEvent>, now: seq<DriverEvent>,
                         vt: Option<TaskHandle>, daq: seq<(string, TaskHandle)>,
                         gpib: seq<(HardwareChannel, TaskHandle)>, rs232: seq<(HardwareChannel, TaskHandle)>,
                         rfsg: seq<(HardwareChannel, TaskHandle)>, allOk: bool, escaped: bool, ok: bool,
                         errorsBefore: bool, errorsAfter: bool,
                         after: (seq<(HardwareChannel, TaskHandle)>, seq<(HardwareChannel, TaskHandle)>,
                                 seq<(HardwareChannel, TaskHandle)>))
    requires IsPrefix(start, mid) && IsPrefix(mid, now)
    requires Actions(mid[|start|..]) == GuardedPhase(vt, daq) && (allOk <==> AllOk(mid[|start|..]))
    requires escaped ==> StoppedAtFailure(now[|mid|..], StopAll(SoftwareTimedTasks(gpib, rs232, rfsg)))
    requires !escaped ==> Completed(now[|mid|..], StopAll(SoftwareTimedTasks(gpib, rs232, rfsg)))
    requires after == RegistriesAfter(gpib, rs232, rfsg, if escaped then Some(|now| - |mid| - 1) else None)
    requires ok == (allOk && !escaped) && errorsAfter == (escaped && errorsBefore)
    ensures IsPrefix(start, now)
    ensures CleanedUp(now[|start|..], vt, daq, gpib, rs232, rfsg, ok, errorsBefore, errorsAfter, after)
  {
    SplitLog(start, mid, now);
    var head, tail := mid[|start|..], now[|mid|..];
    CleanedUpFromPhases(head, tail, vt, daq, gpib, rs232, rfsg, allOk, escaped, errorsBefore, after);
  }

  /** What a cleanup leaves keeps `RegistriesValid`, and a successful cleanup leaves the
      three unguarded registries empty and the error flag cleared. */
  lemma CleanupLeaves(es: seq<DriverEvent>, vt: Option<TaskHandle>, daq: seq<(string, TaskHandle)>,
                      gpib: seq<(HardwareChannel, TaskHandle)>, rs232: seq<(HardwareChannel, TaskHandle)>,
                      rfsg: seq<(HardwareChannel, TaskHandle)>, ok: bool, errorsBefore: bool, errorsAfter: bool,
                      after: (seq<(HardwareChannel, TaskHandle)>, seq<(HardwareChannel, TaskHandle)>,
                              seq<(HardwareChannel, TaskHandle)>), nextId: nat)
    requires UniqueKeys(gpib) && UniqueKeys(rs232) && UniqueKeys(rfsg)
    requires CleanedUp(es, vt, daq, gpib, rs232, rfsg, ok, errorsBefore, errorsAfter, after)
    ensures RegistriesValid(true, None, [], after.0, after.1, after.2, nextId)
    ensures ok ==> after == ([], [], []) && !errorsAfter
  {
    var guarded, stops := GuardedPhase(vt, daq), StopAll(SoftwareTimedTasks(gpib, rs232, rfsg));
    CleanedRegistriesValid(gpib, rs232, rfsg, EscapedAt(es, guarded, stops),
                           true, None, [], after.0, after.1, after.2, nextId);
    if ok {
      CleanupOutcome(es, guarded, stops);
    }
  }

  /** The DAQ registry after generation for `devices[..i]`, started from `daq0` with task
      ids from `n0` on: its keys are the start's followed by `DaqTaskDevices`, every walked
      device has settings, and every added entry is a DAQ task handed out since. */
  predicate DaqLoopAt(devices: seq<string>, i: nat, daq0: seq<(string, TaskHandle)>, daq: seq<(string, TaskHandle)>,
                      n0: nat, devs: seq<(string, DeviceSettings)>, digital: seq<(int, HardwareChannel)>,
                      analog: seq<(int, HardwareChannel)>)
  {
    && i <= |devices|
    && Keys(daq) == Keys(daq0) + DaqTaskDevices(devices[..i], devs, digital, analog)
    && (forall d :: d in devices[..i] ==> Lookup(devs, d).Some?)
    && IsPrefix(daq0, daq)
    && (forall j :: |daq0| <= j < |daq| ==> daq[j].1.kind == DaqMxTask && n0 <= daq[j].1.id)
  }

  /** One device of the DAQ loop: a selected device adds its task, any other adds nothing. */
  lemma DaqLoopStep(devices: seq<string>, i: nat, daq0: seq<(string, TaskHandle)>, before: seq<(string, TaskHandle)>,
                    after: seq<(string, TaskHandle)>, n0: nat, n: nat, devs: seq<(string, DeviceSettings)>,
                    digital: seq<(int, HardwareChannel)>, analog: seq<(int, HardwareChannel)>)
    requires i < |devices| && DaqLoopAt(devices, i, daq0, before, n0, devs, digital, analog) && n0 <= n
    requires Lookup(devs, devices[i]).Some?
    requires GetsDaqTask(devs, digital, analog, devices[i]) ==> after == before + [(devices[i], TaskHandle(DaqMxTask, n))]
    requires !GetsDaqTask(devs, digital, analog, devices[i]) ==> after == before
    ensures DaqLoopAt(devices, i + 1, daq0, after, n0, devs, digital, analog)
  {
    var w := devices[..i + 1];
    assert w[..|w| - 1] == devices[..i] && w[|w| - 1] == devices[i];
    if GetsDaqTask(devs, digital, analog, devices[i]) {
      KeysAppend(before, devices[i], TaskHandle(DaqMxTask, n));
      assert after[..|daq0|] == before[..|daq0|];
    }
  }

  /** `DaqLoopAt`, with the task ids handed out so far and the run of the walked devices,
      whose notes are the registry's additions. */
  predicate DaqLoopRunAt(devices: seq<string>, i: nat, daq0: seq<(string, TaskHandle)>, daq: seq<(string, TaskHandle)>,
                         n0: nat, nextId: nat, devs: seq<(string, DeviceSettings)>, digital: seq<(int, HardwareChannel)>,
                         analog: seq<(int, HardwareChannel)>, es: seq<DriverEvent>)
  {
    && DaqLoopAt(devices, i, daq0, daq, n0, devs, digital, analog)
    && nextId == n0 + |DaqTaskDevices(devices[..i], devs, digital, analog)|
    && Ran(DaqLoopStages(devices[..i], n0, devs, digital, analog, Keys(daq0)), es, true)
    && daq == daq0 + DaqOf(Noted(DaqLoopStages(devices[..i], n0, devs, digital, analog, Keys(daq0)), es))
  }

  /** One pass of the DAQ loop, from what `generateDaqMxTaskOnDevice` promises: a pass that
      returns keeps `DaqLoopRunAt`, one that throws ends the loop's run. */
  lemma DaqLoopPass(devices: seq<string>, i: nat, daq0: seq<(string, TaskHandle)>, before: seq<(string, TaskHandle)>,
                    after: seq<(string, TaskHandle)>, n0: nat, n: nat, nextId: nat, devs: seq<(string, DeviceSettings)>,
                    digital: seq<(int, HardwareChannel)>, analog: seq<(int, HardwareChannel)>,
                    e1: seq<DriverEvent>, e2: seq<DriverEvent>, ok: bool)
    requires i < |devices| && DaqLoopRunAt(devices, i, daq0, before, n0, n, devs, digital, analog, e1)
    requires var step := DaqDeviceStages(devices[i], n, devs, digital, analog, Keys(before));
      Ran(step, e2, ok) && after == before + DaqOf(Noted(step, e2))
    requires ok ==> Lookup(devs, devices[i]).Some?
    requires ok ==> nextId == n + if GetsDaqTask(devs, digital, analog, devices[i]) then 1 else 0
    requires ok && GetsDaqTask(devs, digital, analog, devices[i]) ==> after == before + [(devices[i], TaskHandle(DaqMxTask, n))]
    requires !GetsDaqTask(devs, digital, analog, devices[i]) ==> after == before
    ensures ok ==> DaqLoopRunAt(devices, i + 1, daq0, after, n0, nextId, devs, digital, analog, e1 + e2)
    ensures var whole := DaqLoopStages(devices, n0, devs, digital, analog, Keys(daq0));
      !ok ==> Ran(whole, e1 + e2, false) && after == daq0 + DaqOf(Noted(whole, e1 + e2))
  {
    var prefix := DaqLoopStages(devices[..i], n0, devs, digital, analog, Keys(daq0));
    var step := DaqDeviceStages(devices[i], n, devs, digital, analog, Keys(before));
    DaqPassStages(devices, i, n0, n, devs, digital, analog, Keys(daq0), Keys(before));
    DaqRegistryStep(prefix, step, DaqLoopStages(devices, n0, devs, digital, analog, Keys(daq0)),
                    e1, e2, ok, daq0, before, after);
    if ok {
      DaqLoopPassed(devices, i, daq0, before, after, n0, n, nextId, devs, digital, analog, e1 + e2);
    }
  }

  /** The stages of one DAQ loop pass, from the task id and keys the walked devices left,
      extend the loop's stages by one device. */
  lemma DaqPassStages(devices: seq<string>, i: nat, n0: nat, n: nat, devs: seq<(string, DeviceSettings)>,
                      digital: seq<(int, HardwareChannel)>, analog: seq<(int, HardwareChannel)>,
                      keys0: seq<string>, keys: seq<string>)
    requires i < |devices|
    requires var done := DaqTaskDevices(devices[..i], devs, digital, analog);
      keys == keys0 + done && n == n0 + |done|
    ensures var s := DaqLoopStages(devices[..i], n0, devs, digital, analog, keys0)
                     + DaqDeviceStages(devices[i], n, devs, digital, analog, keys);
      && s == DaqLoopStages(devices[..i + 1], n0, devs, digital, analog, keys0)
      && IsPrefix(s, DaqLoopStages(devices, n0, devs, digital, analog, keys0))
  {
    DaqLoopSnoc(devices, i, n0, devs, digital, analog, keys0);
  }

  /** A DAQ loop pass that returned: the run of the walked devices, one more of them, and
      `DaqLoopStep` give `DaqLoopRunAt` one device further. */
  lemma DaqLoopPassed(devices: seq<string>, i: nat, daq0: seq<(string, TaskHandle)>, before: seq<(string, TaskHandle)>,
                      after: seq<(string, TaskHandle)>, n0: nat, n: nat, nextId: nat,
                      devs: seq<(string, DeviceSettings)>, digital: seq<(int, HardwareChannel)>,
                      analog: seq<(int, HardwareChannel)>, es: seq<DriverEvent>)
    requires i < |devices| && DaqLoopAt(devices, i, daq0, before, n0, devs, digital, analog)
    requires n == n0 + |DaqTaskDevices(devices[..i], devs, digital, analog)|
    requires Lookup(devs, devices[i]).Some?
    requires nextId == n + if GetsDaqTask(devs, digital, analog, devices[i]) then 1 else 0
    requires GetsDaqTask(devs, digital, analog, devices[i]) ==> after == before + [(devices[i], TaskHandle(DaqMxTask, n))]
    requires !GetsDaqTask(devs, digital, analog, devices[i]) ==> after == before
    requires var s := DaqLoopStages(devices[..i + 1], n0, devs, digital, analog, Keys(daq0));
      Ran(s, es, true) && after == daq0 + DaqOf(Noted(s, es))
    ensures DaqLoopRunAt(devices, i + 1, daq0, after, n0, nextId, devs, digital, analog, es)
  {
    DaqLoopSnoc(devices, i, n0, devs, digital, analog, Keys(daq0));
    DaqLoopStep(devices, i, daq0, before, after, n0, n, devs, digital, analog);
  }

  /** The run of generation after its null checks on the inputs `g`: every registry and the
      reported ids are what it noted, and it gets through exactly when the inputs pass every
      check of generation and no driver call throws. */
  predicate GenerationRan(g: GenerationInputs, consumed: set<int>, es: seq<DriverEvent>, ok: bool,
                          vt: Option<TaskHandle>, daq: seq<(string, TaskHandle)>,
                          gpib: seq<(HardwareChannel, TaskHandle)>, rfsg: seq<(HardwareChannel, TaskHandle)>,
                          rs232: seq<(HardwareChannel, TaskHandle)>, mis0: seq<int>, mis: seq<int>)
  {
    && (ok <==> GenerationDataOk(g, consumed) && AllOk(es))
    && var s := GenerationStages(g, consumed);
       var nt := Noted(s, es);
       && Ran(s, es, ok)
       && vt == TimebaseOf(nt) && daq == DaqOf(nt)
       && gpib == ChannelOf(nt, GpibRegistry) && rfsg == ChannelOf(nt, RfsgRegistry)
       && rs232 == ChannelOf(nt, Rs232Registry) && mis == mis0 + MisconfiguredOf(nt)
  }

  /** Generation when its device part failed: the channel part did not run. */
  lemma GenerationDeviceStopped(g: GenerationInputs, consumed: set<int>, eD: seq<DriverEvent>, vt: Option<TaskHandle>,
                                daq: seq<(string, TaskHandle)>, n: nat, digital: seq<(int, HardwareChannel)>,
                                mis0: seq<int>)
    requires DeviceTasksRan(g, consumed, eD, false, vt, daq, n, digital)
    ensures GenerationRan(g, consumed, eD, false, vt, daq, [], [], [], mis0, mis0)
  {
    GenerationRun(g, consumed, eD, false, [], false);
    EntryProjections(MisconfiguredEntry(0));
    assert mis0 + [] == mis0;
    GenerationOutcome(g, consumed, eD, false);
  }

  /** Generation when its device part got through: the channel part ran on the inputs as the
      device part left them, which differ from `g` only in the digital map and the next
      task id, neither of which the channel part reads. */
  lemma GenerationBothRun(g: GenerationInputs, g2: GenerationInputs, consumed: set<int>, eD: seq<DriverEvent>,
                          vt: Option<TaskHandle>, daq: seq<(string, TaskHandle)>, nD: nat,
                          digital: seq<(int, HardwareChannel)>, eC: seq<DriverEvent>, okC: bool,
                          gpib: seq<(HardwareChannel, TaskHandle)>, rfsg: seq<(HardwareChannel, TaskHandle)>,
                          rs232: seq<(HardwareChannel, TaskHandle)>, mis0: seq<int>, mis: seq<int>, n: nat)
    requires DeviceTasksRan(g, consumed, eD, true, vt, daq, nD, digital)
    requires g2.gpib == g.gpib && g2.rs232 == g.rs232 && g2.devs == g.devs
    requires g2.made == g.made && g2.connections == g.connections
    requires ChannelTasksRan(g2, nD, eC, okC, gpib, rfsg, rs232, mis0, mis, n)
    ensures GenerationRan(g, consumed, eD + eC, okC, vt, daq, gpib, rfsg, rs232, mis0, mis)
  {
    ChannelTasksRanOnSameChannels(g2, g, nD, eC, okC, gpib, rfsg, rs232, mis0, mis, n);
    GenerationRun(g, consumed, eD, true, eC, okC);
    GenerationOutcome(g, consumed, eD + eC, okC);
  }

  /** `GenerationBothRun` on the driver log as it grew: the device part from `l0` to `l1`,
      the channel part from `l1` to `now`. */
  lemma GenerationBothLogged(g: GenerationInputs, g2: GenerationInputs, consumed: set<int>, l0: seq<DriverEvent>,
                             l1: seq<DriverEvent>, now: seq<DriverEvent>, vt: Option<TaskHandle>,
                             daq: seq<(string, TaskHandle)>, nD: nat, digital: seq<(int, HardwareChannel)>, okC: bool,
                             gpib: seq<(HardwareChannel, TaskHandle)>, rfsg: seq<(HardwareChannel, TaskHandle)>,
                             rs232: seq<(HardwareChannel, TaskHandle)>, mis0: seq<int>, mis: seq<int>, n: nat)
    requires IsPrefix(l0, l1) && IsPrefix(l1, now)
    requires DeviceTasksRan(g, consumed, l1[|l0|..], true, vt, daq, nD, digital)
    requires g2.gpib == g.gpib && g2.rs232 == g.rs232 && g2.devs == g.devs
    requires g2.made == g.made && g2.connections == g.connections
    requires ChannelTasksRan(g2, nD, now[|l1|..], okC, gpib, rfsg, rs232, mis0, mis, n)
    ensures IsPrefix(l0, now)
    ensures GenerationRan(g, consumed, now[|l0|..], okC, vt, daq, gpib, rfsg, rs232, mis0, mis)
  {
    SplitLog(l0, l1, now);
    GenerationBothRun(g, g2, consumed, l1[|l0|..], vt, daq, nD, digital, now[|l1|..], okC, gpib, rfsg, rs232,
                      mis0, mis, n);
  }

  /** The channel part's run depends only on the inputs it reads: the GPIB and RS232 maps,
      the device settings and the connections. */
  lemma ChannelTasksRanOnSameChannels(g: GenerationInputs, g2: GenerationInputs, n0: nat, es: seq<DriverEvent>,
                                      ok: bool, gpib: seq<(HardwareChannel, TaskHandle)>,
                                      rfsg: seq<(HardwareChannel, TaskHandle)>,
                                      rs232: seq<(HardwareChannel, TaskHandle)>, mis0: seq<int>, mis: seq<int>, n: nat)
    requires g2.gpib == g.gpib && g2.rs232 == g.rs232 && g2.devs == g.devs
    requires g2.made == g.made && g2.connections == g.connections
    requires ChannelTasksRan(g, n0, es, ok, gpib, rfsg, rs232, mis0, mis, n)
    ensures ChannelTasksRan(g2, n0, es, ok, gpib, rfsg, rs232, mis0, mis, n)
  {
    assert ChannelStages(g, n0) == ChannelStages(g2, n0);
  }

  /** The channel part's run on the inputs `g` from task id `n0`: the channel registries and
      the reported ids are what it noted; it gets through exactly when the GPIB and RS232
      maps pass its checks and no driver call throws, and then the GPIB loop and the RS232
      loop took their task ids. */
  predicate ChannelTasksRan(g: GenerationInputs, n0: nat, es: seq<DriverEvent>, ok: bool,
                            gpib: seq<(HardwareChannel, TaskHandle)>, rfsg: seq<(HardwareChannel, TaskHandle)>,
                            rs232: seq<(HardwareChannel, TaskHandle)>, mis0: seq<int>, mis: seq<int>, n: nat)
  {
    && (ok <==> GpibDataOk(g.gpib, g.devs) && Rs232DataOk(g.rs232, g.devs) && AllOk(es))
    && (ok ==> n == n0 + GpibTaskCount(g.gpib) + |g.rs232|)
    && var s := ChannelStages(g, n0);
       var nt := Noted(s, es);
       && Ran(s, es, ok)
       && gpib == ChannelOf(nt, GpibRegistry) && rfsg == ChannelOf(nt, RfsgRegistry)
       && rs232 == ChannelOf(nt, Rs232Registry) && mis == mis0 + MisconfiguredOf(nt)
  }

  /** The channel part of generation when the GPIB loop, run on empty registries, stopped:
      nothing after it ran. */
  lemma ChannelGpibStopped(g: GenerationInputs, n0: nat, eG: seq<DriverEvent>, nG: nat,
                           gpib: seq<(HardwareChannel, TaskHandle)>, rfsg: seq<(HardwareChannel, TaskHandle)>,
                           mis0: seq<int>, mis: seq<int>)
    requires GpibLoopRan(g.gpib, n0, g.devs, [], [], mis0, eG, false, gpib, rfsg, mis, nG)
    ensures ChannelTasksRan(g, n0, eG, false, gpib, rfsg, [], mis0, mis, nG)
  {
    var nt := Noted(GpibLoopStages(g.gpib, n0, g.devs, [], []), eG);
    assert Keys<HardwareChannel, TaskHandle>([]) == [];
    ChannelRun(g, n0, eG, false, [], false, [], false);
    ChannelLoopProjections(g, n0, eG, [], false);
    EntryProjections(MisconfiguredEntry(0));
    assert nt + [] == nt;
    ChannelOutcome(g, n0, eG, false);
  }

  /** The channel part when the GPIB loop got through and the RS232 loop, run on an empty
      registry, stopped: the routes were not reached. */
  lemma ChannelRs232Stopped(g: GenerationInputs, n0: nat, eG: seq<DriverEvent>, nG: nat,
                            gpib: seq<(HardwareChannel, TaskHandle)>, rfsg: seq<(HardwareChannel, TaskHandle)>,
                            mis0: seq<int>, mis: seq<int>, eR: seq<DriverEvent>,
                            rs232: seq<(HardwareChannel, TaskHandle)>, nR: nat)
    requires GpibLoopRan(g.gpib, n0, g.devs, [], [], mis0, eG, true, gpib, rfsg, mis, nG)
    requires Rs232LoopRan(g.rs232, nG, g.devs, [], eR, false, rs232, nR)
    ensures ChannelTasksRan(g, n0, eG + eR, false, gpib, rfsg, rs232, mis0, mis, nR)
  {
    assert Keys<HardwareChannel, TaskHandle>([]) == [];
    ChannelRun(g, n0, eG, true, eR, false, [], false);
    ChannelLoopProjections(g, n0, eG, eR, true);
    ChannelOutcome(g, n0, eG + eR, false);
  }

  /** The channel part when both loops got through: the routes' calls complete or stop at a
      failure. */
  lemma ChannelRoutesRun(g: GenerationInputs, n0: nat, eG: seq<DriverEvent>, nG: nat,
                         gpib: seq<(HardwareChannel, TaskHandle)>, rfsg: seq<(HardwareChannel, TaskHandle)>,
                         mis0: seq<int>, mis: seq<int>, eR: seq<DriverEvent>,
                         rs232: seq<(HardwareChannel, TaskHandle)>, nR: nat, eC: seq<DriverEvent>, okC: bool)
    requires GpibLoopRan(g.gpib, n0, g.devs, [], [], mis0, eG, true, gpib, rfsg, mis, nG)
    requires Rs232LoopRan(g.rs232, nG, g.devs, [], eR, true, rs232, nR)
    requires okC ==> Completed(eC, ReconcileActions(g.made, g.connections))
    requires !okC ==> StoppedAtFailure(eC, ReconcileActions(g.made, g.connections))
    ensures ChannelTasksRan(g, n0, eG + eR + eC, okC, gpib, rfsg, rs232, mis0, mis, nR)
  {
    assert Keys<HardwareChannel, TaskHandle>([]) == [];
    CallsRan(eC, ReconcileActions(g.made, g.connections));
    ChannelRun(g, n0, eG, true, eR, true, eC, okC);
    assert eG + (eR + eC) == eG + eR + eC;
    ChannelLoopProjections(g, n0, eG, eR, true);
    ChannelOutcome(g, n0, eG + eR + eC, okC);
  }

  /** `ChannelRoutesRun` on the driver log as it grew: the GPIB loop from `l0` to `l1`, the
      RS232 loop from `l1` to `l2`, and the reconciliation from `l2` to `now`. */
  lemma ChannelRoutesLogged(g: GenerationInputs, n0: nat, l0: seq<DriverEvent>, l1: seq<DriverEvent>,
                            l2: seq<DriverEvent>, now: seq<DriverEvent>, nG: nat,
                            gpib: seq<(HardwareChannel, TaskHandle)>, rfsg: seq<(HardwareChannel, TaskHandle)>,
                            mis0: seq<int>, mis: seq<int>, rs232: seq<(HardwareChannel, TaskHandle)>, nR: nat,
                            okC: bool)
    requires IsPrefix(l0, l1) && IsPrefix(l1, l2) && IsPrefix(l2, now)
    requires GpibLoopRan(g.gpib, n0, g.devs, [], [], mis0, l1[|l0|..], true, gpib, rfsg, mis, nG)
    requires Rs232LoopRan(g.rs232, nG, g.devs, [], l2[|l1|..], true, rs232, nR)
    requires okC ==> Completed(now[|l2|..], ReconcileActions(g.made, g.connections))
    requires !okC ==> StoppedAtFailure(now[|l2|..], ReconcileActions(g.made, g.connections))
    ensures IsPrefix(l0, now)
    ensures ChannelTasksRan(g, n0, now[|l0|..], okC, gpib, rfsg, rs232, mis0, mis, nR)
  {
    SplitLog(l0, l1, l2);
    SplitLog(l0, l2, now);
    assert now[|l0|..] == l1[|l0|..] + l2[|l1|..] + now[|l2|..];
    ChannelRoutesRun(g, n0, l1[|l0|..], nG, gpib, rfsg, mis0, mis, l2[|l1|..], rs232, nR, now[|l2|..], okC);
  }

  /** The DAQ loop's run from task id `n0` on the registry `daq0`: the registry gained what
      it noted and, when it got through, one task id went to each selected device. */
  predicate DaqLoopRan(devices: seq<string>, n0: nat, devs: seq<(string, DeviceSettings)>,
                       digital: seq<(int, HardwareChannel)>, analog: seq<(int, HardwareChannel)>,
                       daq0: seq<(string, TaskHandle)>, daq: seq<(string, TaskHandle)>, es: seq<DriverEvent>, ok: bool,
                       n: nat)
  {
    && (ok ==> n == n0 + |DaqTaskDevices(devices, devs, digital, analog)|)
    && var s := DaqLoopStages(devices, n0, devs, digital, analog, Keys(daq0));
       Ran(s, es, ok) && daq == daq0 + DaqOf(Noted(s, es))
  }

  /** The timebase step's run on the inputs `g`: the timebase task is the one it noted and
      no DAQ task is; one task id is handed out when a configured channel got through, and
      the digital map is the one the step leaves. */
  predicate TimebaseRan(g: GenerationInputs, consumed: set<int>, es: seq<DriverEvent>, ok: bool, vt: Option<TaskHandle>,
                        n: nat, digital: seq<(int, HardwareChannel)>)
  {
    && n == g.nextId + (if ok && Configured(g.timebase) then 1 else 0)
    && digital == (if ok then DigitalAfterTimebase(g, consumed) else g.digital)
    && var s := TimebaseStages(g.timebase, g.digital, g.devs, g.nextId);
       var nt := Noted(s, es);
       && Ran(s, es, ok)
       && (ok ==> vt == TimebaseOf(nt)) && (!ok ==> TimebaseOf(nt).None?) && DaqOf(nt) == []
  }

  /** The device part's run on the inputs `g`: the timebase and DAQ registries are what it
      noted; it gets through exactly when the inputs pass its checks and no driver call
      throws, and then the task ids and the digital map are those the channel part starts
      from. */
  predicate DeviceTasksRan(g: GenerationInputs, consumed: set<int>, es: seq<DriverEvent>, ok: bool,
                           vt: Option<TaskHandle>, daq: seq<(string, TaskHandle)>, n: nat,
                           digital: seq<(int, HardwareChannel)>)
  {
    && (ok <==> DeviceDataOk(g, consumed) && AllOk(es))
    && (ok ==> n == GpibIdBase(g, consumed) && digital == DigitalAfterTimebase(g, consumed))
    && var s := DeviceStages(g, consumed);
       var nt := Noted(s, es);
       Ran(s, es, ok) && vt == TimebaseOf(nt) && daq == DaqOf(nt)
  }

  /** The device part of generation from what its two steps promise: the timebase step's
      run and, once it got through and there is a device list, the DAQ loop's. */
  lemma DeviceTasksRun(g: GenerationInputs, consumed: set<int>, eTb: seq<DriverEvent>, okTb: bool,
                       vt: Option<TaskHandle>, n1: nat, dig1: seq<(int, HardwareChannel)>, eDaq: seq<DriverEvent>,
                       okDaq: bool, daq0: seq<(string, TaskHandle)>, daq: seq<(string, TaskHandle)>, n2: nat)
    requires TimebaseRan(g, consumed, eTb, okTb, vt, n1, dig1) && (!okTb ==> vt.None?)
    requires daq0 == []
    requires okTb && g.devices.Some? ==> DaqLoopRan(g.devices.value, n1, g.devs, dig1, g.analog, daq0, daq, eDaq, okDaq, n2)
    requires !(okTb && g.devices.Some?) ==> eDaq == [] && daq == daq0 && !okDaq && n2 == n1
    ensures DeviceTasksRan(g, consumed, eTb + eDaq, okDaq, vt, daq, n2, dig1)
  {
    var reached := okTb && g.devices.Some?;
    var nTb := Noted(TimebaseStages(g.timebase, g.digital, g.devs, g.nextId), eTb);
    var sDaq := DaqLoopStages(UsedDevices(g), DaqIdBase(g), g.devs, DigitalAfterTimebase(g, consumed), g.analog, []);
    if reached {
      assert Keys(daq0) == [];
      assert sDaq == DaqLoopStages(g.devices.value, n1, g.devs, dig1, g.analog, Keys(daq0));
    } else {
      assert eTb + eDaq == eTb;
    }
    DeviceRun(g, consumed, eTb, okTb, eDaq, okDaq);
    DeviceOutcome(g, consumed, eTb + eDaq, okDaq);
  }

  /** Generation for a used RS232 channel, from what its driver calls did: the run of its
      stages, and the registry's addition as its notes. */
  lemma Rs232Step(hc: HardwareChannel, n: nat, devs: seq<(string, DeviceSettings)>, keys: seq<HardwareChannel>,
                  created: bool, generated: bool, es: seq<DriverEvent>, ok: bool,
                  r0: seq<(HardwareChannel, TaskHandle)>, r1: seq<(HardwareChannel, TaskHandle)>)
    requires var found := Lookup(devs, "Serial").Some?;
      && es == BufferedTaskEvents(TaskHandle(RS232Task, n), found, created, generated)
      && ok == (created && found && generated && hc !in keys)
    requires r1 == r0 + if ok then [(hc, TaskHandle(RS232Task, n))] else []
    ensures var s := Rs232ChannelStages(hc, n, devs, keys);
      Ran(s, es, ok) && r1 == r0 + ChannelOf(Noted(s, es), Rs232Registry)
  {
    Rs232ChannelRun(hc, n, devs, keys, created, generated);
    EntryProjections(ChannelEntry(Rs232Registry, hc, TaskHandle(RS232Task, n)));
    assert r0 + [] == r0;
  }

  /** The RS232 loop after `m[..i]`: the registry's keys are the start's followed by the
      walked channels, one task id each, "Serial" was found once a channel was walked, and
      the run is that of the walked channels, whose notes are the registry's additions. */
  predicate Rs232LoopRunAt(m: seq<(int, HardwareChannel)>, i: nat, r0: seq<(HardwareChannel, TaskHandle)>,
                           r: seq<(HardwareChannel, TaskHandle)>, n0: nat, nextId: nat,
                           devs: seq<(string, DeviceSettings)>, es: seq<DriverEvent>)
  {
    && i <= |m|
    && Keys(r) == Keys(r0) + Values(m[..i])
    && nextId == n0 + i
    && (i > 0 ==> Lookup(devs, "Serial").Some?)
    && Ran(Rs232LoopStages(m[..i], n0, devs, Keys(r0)), es, true)
    && r == r0 + ChannelOf(Noted(Rs232LoopStages(m[..i], n0, devs, Keys(r0)), es), Rs232Registry)
  }

  /** The RS232 loop's stages after one more channel, with the task id and the keys that the
      walked channels leave. */
  lemma Rs232NextStages(m: seq<(int, HardwareChannel)>, i: nat, n0: nat, devs: seq<(string, DeviceSettings)>,
                        k0: seq<HardwareChannel>, n: nat, k: seq<HardwareChannel>)
    requires i < |m| && n == n0 + i && k == k0 + Values(m[..i])
    ensures Rs232LoopStages(m[..i + 1], n0, devs, k0)
            == Rs232LoopStages(m[..i], n0, devs, k0) + Rs232ChannelStages(m[i].1, n, devs, k)
    ensures IsPrefix(Rs232LoopStages(m[..i + 1], n0, devs, k0), Rs232LoopStages(m, n0, devs, k0))
  {
    Rs232LoopSnoc(m, i, n0, devs, k0);
  }

  lemma Rs232LoopBegins(m: seq<(int, HardwareChannel)>, r0: seq<(HardwareChannel, TaskHandle)>, n0: nat,
                        devs: seq<(string, DeviceSettings)>)
    ensures Rs232LoopRunAt(m, 0, r0, r0, n0, n0, devs, [])
  {
    LoopStarts(m);
    assert r0 + [] == r0 && Keys(r0) + [] == Keys(r0);
  }

  lemma Rs232LoopEnds(m: seq<(int, HardwareChannel)>, r0: seq<(HardwareChannel, TaskHandle)>,
                      r: seq<(HardwareChannel, TaskHandle)>, n0: nat, nextId: nat,
                      devs: seq<(string, DeviceSettings)>, es: seq<DriverEvent>)
    requires Rs232LoopRunAt(m, |m|, r0, r, n0, nextId, devs, es)
    ensures Rs232LoopRan(m, n0, devs, r0, es, true, r, nextId)
    ensures Keys(r) == Keys(r0) + Values(m)
  {
    LoopStarts(m);
  }

  /** A pass of the RS232 loop that got through. */
  lemma Rs232LoopPass(m: seq<(int, HardwareChannel)>, i: nat, r0: seq<(HardwareChannel, TaskHandle)>,
                      before: seq<(HardwareChannel, TaskHandle)>, after: seq<(HardwareChannel, TaskHandle)>,
                      n0: nat, n: nat, nextId: nat, devs: seq<(string, DeviceSettings)>,
                      e1: seq<DriverEvent>, e2: seq<DriverEvent>)
    requires i < |m| && Rs232LoopRunAt(m, i, r0, before, n0, n, devs, e1)
    requires var step := Rs232ChannelStages(m[i].1, n, devs, Keys(before));
      Ran(step, e2, true) && after == before + ChannelOf(Noted(step, e2), Rs232Registry)
    requires nextId == n + 1 && after == before + [(m[i].1, TaskHandle(RS232Task, n))]
    requires Lookup(devs, "Serial").Some?
    ensures Rs232LoopRunAt(m, i + 1, r0, after, n0, nextId, devs, e1 + e2)
  {
    var prefix := Rs232LoopStages(m[..i], n0, devs, Keys(r0));
    var step := Rs232ChannelStages(m[i].1, n, devs, Keys(before));
    Rs232NextStages(m, i, n0, devs, Keys(r0), n, Keys(before));
    ChannelRegistryStep(prefix, step, prefix + step, e1, e2, true, Rs232Registry, r0, before, after);
    KeysAppend(before, m[i].1, TaskHandle(RS232Task, n));
    KeysAppend(m[..i], m[i].0, m[i].1);
    assert m[..i + 1] == m[..i] + [(m[i].0, m[i].1)];
  }

  /** A pass of the RS232 loop that threw ends the whole loop's run there. */
  lemma Rs232LoopStop(m: seq<(int, HardwareChannel)>, i: nat, r0: seq<(HardwareChannel, TaskHandle)>,
                      before: seq<(HardwareChannel, TaskHandle)>, after: seq<(HardwareChannel, TaskHandle)>,
                      n0: nat, n: nat, devs: seq<(string, DeviceSettings)>, e1: seq<DriverEvent>, e2: seq<DriverEvent>)
    requires i < |m| && Rs232LoopRunAt(m, i, r0, before, n0, n, devs, e1)
    requires var step := Rs232ChannelStages(m[i].1, n, devs, Keys(before));
      Ran(step, e2, false) && after == before + ChannelOf(Noted(step, e2), Rs232Registry)
    ensures Rs232LoopRan(m, n0, devs, r0, e1 + e2, false, after, n)
  {
    var prefix := Rs232LoopStages(m[..i], n0, devs, Keys(r0));
    var step := Rs232ChannelStages(m[i].1, n, devs, Keys(before));
    Rs232NextStages(m, i, n0, devs, Keys(r0), n, Keys(before));
    ChannelRegistryStep(prefix, step, Rs232LoopStages(m, n0, devs, Keys(r0)), e1, e2, false, Rs232Registry, r0,
                        before, after);
  }

  /** The RS232 loop's run over `m` from task id `n0` on the registry `r0`: the registry
      gained what it noted and, when it got through, one task id went to each channel. */
  predicate Rs232LoopRan(m: seq<(int, HardwareChannel)>, n0: nat, devs: seq<(string, DeviceSettings)>,
                         r0: seq<(HardwareChannel, TaskHandle)>, es: seq<DriverEvent>, ok: bool,
                         r: seq<(HardwareChannel, TaskHandle)>, n: nat)
  {
    && (ok ==> n == n0 + |m|)
    && var s := Rs232LoopStages(m, n0, devs, Keys(r0));
       Ran(s, es, ok) && r == r0 + ChannelOf(Noted(s, es), Rs232Registry)
  }

  /** The GPIB loop's run over `m` from task id `n0`: the GPIB and RFSG registries and the
      reported ids gained what it noted and, when it got through, the task ids its plain
      channels and RFSG masquerades took. */
  predicate GpibLoopRan(m: seq<(int, HardwareChannel)>, n0: nat, devs: seq<(string, DeviceSettings)>,
                        g0: seq<(HardwareChannel, TaskHandle)>, f0: seq<(HardwareChannel, TaskHandle)>, mis0: seq<int>,
                        es: seq<DriverEvent>, ok: bool, g: seq<(HardwareChannel, TaskHandle)>,
                        f: seq<(HardwareChannel, TaskHandle)>, mis: seq<int>, n: nat)
  {
    && (ok ==> n == n0 + GpibTaskCount(m))
    && var s := GpibLoopStages(m, n0, devs, Keys(g0), Keys(f0));
       var nt := Noted(s, es);
       && Ran(s, es, ok)
       && g == g0 + ChannelOf(nt, GpibRegistry) && f == f0 + ChannelOf(nt, RfsgRegistry)
       && mis == mis0 + MisconfiguredOf(nt)
  }

  /** Generation for a plain GPIB channel, from what its driver calls did: the run of its
      stages, and the registries' additions as its notes. */
  lemma PlainGpibStep(id: int, hc: HardwareChannel, n: nat, devs: seq<(string, DeviceSettings)>,
                      gk: seq<HardwareChannel>, rk: seq<HardwareChannel>, created: bool, generated: bool,
                      es: seq<DriverEvent>, ok: bool, g0: seq<(HardwareChannel, TaskHandle)>,
                      g1: seq<(HardwareChannel, TaskHandle)>, f0: seq<(HardwareChannel, TaskHandle)>, m0: seq<int>)
    requires RoleOf(hc) == PlainGpib
    requires var found := Lookup(devs, hc.deviceName).Some?;
      && es == BufferedTaskEvents(TaskHandle(GpibTask, n), found, created, generated)
      && ok == (created && found && generated && hc !in gk)
    requires g1 == g0 + if ok then [(hc, TaskHandle(GpibTask, n))] else []
    ensures var s := GpibChannelStages(id, hc, n, devs, gk, rk);
      var nt := Noted(s, es);
      && Ran(s, es, ok) && g1 == g0 + ChannelOf(nt, GpibRegistry)
      && f0 == f0 + ChannelOf(nt, RfsgRegistry) && m0 == m0 + MisconfiguredOf(nt)
  {
    PlainGpibRun(id, hc, n, devs, gk, rk, created, generated);
    EntryProjections(ChannelEntry(GpibRegistry, hc, TaskHandle(GpibTask, n)));
    assert f0 + [] == f0 && m0 + [] == m0 && g0 + [] == g0;
  }

  /** Generation for an RFSG masquerade, from what its driver calls did. */
  lemma RfsgStep(id: int, hc: HardwareChannel, n: nat, devs: seq<(string, DeviceSettings)>,
                 gk: seq<HardwareChannel>, rk: seq<HardwareChannel>, created: bool,
                 es: seq<DriverEvent>, ok: bool, f0: seq<(HardwareChannel, TaskHandle)>,
                 f1: seq<(HardwareChannel, TaskHandle)>, g0: seq<(HardwareChannel, TaskHandle)>, m0: seq<int>)
    requires RoleOf(hc) == RfsgMasquerade
    requires var found := Lookup(devs, hc.deviceName).Some?;
      && es == RfsgEvents(TaskHandle(RfsgTask, n), found, created)
      && ok == (found && created && hc !in rk)
    requires f1 == f0 + if ok then [(hc, TaskHandle(RfsgTask, n))] else []
    ensures var s := GpibChannelStages(id, hc, n, devs, gk, rk);
      var nt := Noted(s, es);
      && Ran(s, es, ok) && f1 == f0 + ChannelOf(nt, RfsgRegistry)
      && g0 == g0 + ChannelOf(nt, GpibRegistry) && m0 == m0 + MisconfiguredOf(nt)
  {
    RfsgRun(id, hc, n, devs, gk, rk, created);
    EntryProjections(ChannelEntry(RfsgRegistry, hc, TaskHandle(RfsgTask, n)));
    assert f0 + [] == f0 && m0 + [] == m0 && g0 + [] == g0;
  }

  /** The GPIB loop after `m[..i]`: the registries' keys are the start's followed by the
      channels of each role, the reported ids those of the masquerades of type NONE, the
      task ids handed out one per task, and the run that of the walked channels, whose notes
      are the registries' additions. */
  predicate GpibLoopRunAt(m: seq<(int, HardwareChannel)>, i: nat, g0: seq<(HardwareChannel, TaskHandle)>,
                          f0: seq<(HardwareChannel, TaskHandle)>, mis0: seq<int>, g: seq<(HardwareChannel, TaskHandle)>,
                          f: seq<(HardwareChannel, TaskHandle)>, mis: seq<int>, n0: nat, nextId: nat,
                          devs: seq<(string, DeviceSettings)>, es: seq<DriverEvent>)
  {
    && i <= |m|
    && Keys(g) == Keys(g0) + ChannelsWithRole(m[..i], PlainGpib)
    && Keys(f) == Keys(f0) + ChannelsWithRole(m[..i], RfsgMasquerade)
    && mis == mis0 + IdsWithRole(m[..i], UnconfiguredMasquerade)
    && nextId == n0 + GpibTaskCount(m[..i])
    && var s := GpibLoopStages(m[..i], n0, devs, Keys(g0), Keys(f0));
       && Ran(s, es, true)
       && g == g0 + ChannelOf(Noted(s, es), GpibRegistry)
       && f == f0 + ChannelOf(Noted(s, es), RfsgRegistry)
       && mis == mis0 + MisconfiguredOf(Noted(s, es))
  }

  /** The GPIB loop starts with nothing walked. */
  lemma GpibLoopBegins(m: seq<(int, HardwareChannel)>, g0: seq<(HardwareChannel, TaskHandle)>,
                       f0: seq<(HardwareChannel, TaskHandle)>, mis0: seq<int>, n0: nat, devs: seq<(string, DeviceSettings)>)
    ensures GpibLoopRunAt(m, 0, g0, f0, mis0, g0, f0, mis0, n0, n0, devs, [])
  {
    LoopStarts(m);
    assert g0 + [] == g0 && f0 + [] == f0 && mis0 + [] == mis0 && Keys(g0) + [] == Keys(g0) && Keys(f0) + [] == Keys(f0);
  }

  /** The GPIB loop with every channel walked is the whole loop's run. */
  lemma GpibLoopEnds(m: seq<(int, HardwareChannel)>, g0: seq<(HardwareChannel, TaskHandle)>,
                     f0: seq<(HardwareChannel, TaskHandle)>, mis0: seq<int>, g: seq<(HardwareChannel, TaskHandle)>,
                     f: seq<(HardwareChannel, TaskHandle)>, mis: seq<int>, n0: nat, nextId: nat,
                     devs: seq<(string, DeviceSettings)>, es: seq<DriverEvent>)
    requires GpibLoopRunAt(m, |m|, g0, f0, mis0, g, f, mis, n0, nextId, devs, es)
    ensures GpibLoopRan(m, n0, devs, g0, f0, mis0, es, true, g, f, mis, nextId)
    ensures Keys(g) == Keys(g0) + ChannelsWithRole(m, PlainGpib)
    ensures Keys(f) == Keys(f0) + ChannelsWithRole(m, RfsgMasquerade)
    ensures mis == mis0 + IdsWithRole(m, UnconfiguredMasquerade)
  {
    LoopStarts(m);
  }

  /** A pass of the GPIB loop that got through, from what generation for one channel
      promises. */
  lemma GpibLoopPass(m: seq<(int, HardwareChannel)>, i: nat, g0: seq<(HardwareChannel, TaskHandle)>,
                     f0: seq<(HardwareChannel, TaskHandle)>, mis0: seq<int>,
                     gB: seq<(HardwareChannel, TaskHandle)>, fB: seq<(HardwareChannel, TaskHandle)>, misB: seq<int>,
                     gA: seq<(HardwareChannel, TaskHandle)>, fA: seq<(HardwareChannel, TaskHandle)>, misA: seq<int>,
                     n0: nat, n: nat, nextId: nat, devs: seq<(string, DeviceSettings)>,
                     e1: seq<DriverEvent>, e2: seq<DriverEvent>)
    requires i < |m| && GpibLoopRunAt(m, i, g0, f0, mis0, gB, fB, misB, n0, n, devs, e1)
    requires var step := GpibChannelStages(m[i].0, m[i].1, n, devs, Keys(gB), Keys(fB));
      && Ran(step, e2, true)
      && gA == gB + ChannelOf(Noted(step, e2), GpibRegistry)
      && fA == fB + ChannelOf(Noted(step, e2), RfsgRegistry)
      && misA == misB + MisconfiguredOf(Noted(step, e2))
    requires nextId == n + if RoleOf(m[i].1) == UnconfiguredMasquerade then 0 else 1
    requires RoleOf(m[i].1) != PlainGpib ==> gA == gB
    requires RoleOf(m[i].1) != RfsgMasquerade ==> fA == fB
    requires misA == misB + (if RoleOf(m[i].1) == UnconfiguredMasquerade then [m[i].0] else [])
    requires RoleOf(m[i].1) == PlainGpib ==> gA == gB + [(m[i].1, TaskHandle(GpibTask, n))]
    requires RoleOf(m[i].1) == RfsgMasquerade ==> fA == fB + [(m[i].1, TaskHandle(RfsgTask, n))]
    ensures GpibLoopRunAt(m, i + 1, g0, f0, mis0, gA, fA, misA, n0, nextId, devs, e1 + e2)
  {
    var prefix := GpibLoopStages(m[..i], n0, devs, Keys(g0), Keys(f0));
    var step := GpibChannelStages(m[i].0, m[i].1, n, devs, Keys(gB), Keys(fB));
    GpibNextStages(m, i, n0, devs, Keys(g0), Keys(f0), n, Keys(gB), Keys(fB));
    GpibRegistriesStep(prefix, step, prefix + step, e1, e2, true, g0, gB, gA, f0, fB, fA, mis0, misB, misA);
    GpibKeysStep(m, i, g0, f0, mis0, gB, fB, misB, gA, fA, misA, n0, n, nextId);
  }

  /** A pass of the GPIB loop that threw ends the whole loop's run there. */
  lemma GpibLoopStop(m: seq<(int, HardwareChannel)>, i: nat, g0: seq<(HardwareChannel, TaskHandle)>,
                     f0: seq<(HardwareChannel, TaskHandle)>, mis0: seq<int>,
                     gB: seq<(HardwareChannel, TaskHandle)>, fB: seq<(HardwareChannel, TaskHandle)>, misB: seq<int>,
                     gA: seq<(HardwareChannel, TaskHandle)>, fA: seq<(HardwareChannel, TaskHandle)>, misA: seq<int>,
                     n0: nat, n: nat, devs: seq<(string, DeviceSettings)>, e1: seq<DriverEvent>, e2: seq<DriverEvent>)
    requires i < |m| && GpibLoopRunAt(m, i, g0, f0, mis0, gB, fB, misB, n0, n, devs, e1)
    requires var step := GpibChannelStages(m[i].0, m[i].1, n, devs, Keys(gB), Keys(fB));
      && Ran(step, e2, false)
      && gA == gB + ChannelOf(Noted(step, e2), GpibRegistry)
      && fA == fB + ChannelOf(Noted(step, e2), RfsgRegistry)
      && misA == misB + MisconfiguredOf(Noted(step, e2))
    ensures GpibLoopRan(m, n0, devs, g0, f0, mis0, e1 + e2, false, gA, fA, misA, n)
  {
    var prefix := GpibLoopStages(m[..i], n0, devs, Keys(g0), Keys(f0));
    var step := GpibChannelStages(m[i].0, m[i].1, n, devs, Keys(gB), Keys(fB));
    var whole := GpibLoopStages(m, n0, devs, Keys(g0), Keys(f0));
    GpibNextStages(m, i, n0, devs, Keys(g0), Keys(f0), n, Keys(gB), Keys(fB));
    GpibRegistriesStep(prefix, step, whole, e1, e2, false, g0, gB, gA, f0, fB, fA, mis0, misB, misA);
  }

  /** The GPIB loop's stages after one more channel, with the task id and the keys that the
      walked channels leave. */
  lemma GpibNextStages(m: seq<(int, HardwareChannel)>, i: nat, n0: nat, devs: seq<(string, DeviceSettings)>,
                       gk0: seq<HardwareChannel>, rk0: seq<HardwareChannel>, n: nat, gk: seq<HardwareChannel>,
                       rk: seq<HardwareChannel>)
    requires i < |m| && n == n0 + GpibTaskCount(m[..i])
    requires gk == gk0 + ChannelsWithRole(m[..i], PlainGpib) && rk == rk0 + ChannelsWithRole(m[..i], RfsgMasquerade)
    ensures GpibLoopStages(m[..i + 1], n0, devs, gk0, rk0)
            == GpibLoopStages(m[..i], n0, devs, gk0, rk0) + GpibChannelStages(m[i].0, m[i].1, n, devs, gk, rk)
    ensures IsPrefix(GpibLoopStages(m[..i + 1], n0, devs, gk0, rk0), GpibLoopStages(m, n0, devs, gk0, rk0))
  {
    GpibStagesSnoc(m, i, n0, devs, gk0, rk0);
    assert GpibChannelStages(m[i].0, m[i].1, n0 + GpibTaskCount(m[..i]), devs,
                             gk0 + ChannelsWithRole(m[..i], PlainGpib), rk0 + ChannelsWithRole(m[..i], RfsgMasquerade))
           == GpibChannelStages(m[i].0, m[i].1, n, devs, gk, rk);
    GpibLoopStagesPrefix(m, i + 1, n0, devs, gk0, rk0);
  }

  /** One stage sequence after another, for the three registries GPIB generation fills. */
  lemma GpibRegistriesStep(prefix: seq<Stage>, step: seq<Stage>, whole: seq<Stage>, e1: seq<DriverEvent>,
                           e2: seq<DriverEvent>, ok: bool, g0: seq<(HardwareChannel, TaskHandle)>,
                           gB: seq<(HardwareChannel, TaskHandle)>, gA: seq<(HardwareChannel, TaskHandle)>,
                           f0: seq<(HardwareChannel, TaskHandle)>, fB: seq<(HardwareChannel, TaskHandle)>,
                           fA: seq<(HardwareChannel, TaskHandle)>, mis0: seq<int>, misB: seq<int>, misA: seq<int>)
    requires Ran(prefix, e1, true) && Ran(step, e2, ok) && IsPrefix(prefix + step, whole)
    requires gB == g0 + ChannelOf(Noted(prefix, e1), GpibRegistry) && gA == gB + ChannelOf(Noted(step, e2), GpibRegistry)
    requires fB == f0 + ChannelOf(Noted(prefix, e1), RfsgRegistry) && fA == fB + ChannelOf(Noted(step, e2), RfsgRegistry)
    requires misB == mis0 + MisconfiguredOf(Noted(prefix, e1)) && misA == misB + MisconfiguredOf(Noted(step, e2))
    ensures var n := Noted(prefix + step, e1 + e2);
      && Ran(prefix + step, e1 + e2, ok)
      && gA == g0 + ChannelOf(n, GpibRegistry) && fA == f0 + ChannelOf(n, RfsgRegistry)
      && misA == mis0 + MisconfiguredOf(n)
    ensures var nw := Noted(whole, e1 + e2);
      !ok ==> && Ran(whole, e1 + e2, false)
              && gA == g0 + ChannelOf(nw, GpibRegistry) && fA == f0 + ChannelOf(nw, RfsgRegistry)
              && misA == mis0 + MisconfiguredOf(nw)
  {
    ChannelRegistryStep(prefix, step, whole, e1, e2, ok, GpibRegistry, g0, gB, gA);
    ChannelRegistryStep(prefix, step, whole, e1, e2, ok, RfsgRegistry, f0, fB, fA);
    MisconfiguredStep(prefix, step, whole, e1, e2, ok, mis0, misB, misA);
  }

  /** One successful pass of the GPIB loop keeps the registries' keys, the reported ids and
      the task count in step with the walked channels. */
  lemma GpibKeysStep(m: seq<(int, HardwareChannel)>, i: nat, g0: seq<(HardwareChannel, TaskHandle)>,
                     f0: seq<(HardwareChannel, TaskHandle)>, mis0: seq<int>,
                     gB: seq<(HardwareChannel, TaskHandle)>, fB: seq<(HardwareChannel, TaskHandle)>, misB: seq<int>,
                     gA: seq<(HardwareChannel, TaskHandle)>, fA: seq<(HardwareChannel, TaskHandle)>, misA: seq<int>,
                     n0: nat, n: nat, nextId: nat)
    requires i < |m|
    requires Keys(gB) == Keys(g0) + ChannelsWithRole(m[..i], PlainGpib)
    requires Keys(fB) == Keys(f0) + ChannelsWithRole(m[..i], RfsgMasquerade)
    requires misB == mis0 + IdsWithRole(m[..i], UnconfiguredMasquerade)
    requires n == n0 + GpibTaskCount(m[..i])
    requires nextId == n + if RoleOf(m[i].1) == UnconfiguredMasquerade then 0 else 1
    requires RoleOf(m[i].1) != PlainGpib ==> gA == gB
    requires RoleOf(m[i].1) != RfsgMasquerade ==> fA == fB
    requires misA == misB + (if RoleOf(m[i].1) == UnconfiguredMasquerade then [m[i].0] else [])
    requires RoleOf(m[i].1) == PlainGpib ==> gA == gB + [(m[i].1, TaskHandle(GpibTask, n))]
    requires RoleOf(m[i].1) == RfsgMasquerade ==> fA == fB + [(m[i].1, TaskHandle(RfsgTask, n))]
    ensures Keys(gA) == Keys(g0) + ChannelsWithRole(m[..i + 1], PlainGpib)
    ensures Keys(fA) == Keys(f0) + ChannelsWithRole(m[..i + 1], RfsgMasquerade)
    ensures misA == mis0 + IdsWithRole(m[..i + 1], UnconfiguredMasquerade)
    ensures nextId == n0 + GpibTaskCount(m[..i + 1])
  {
    var w := m[..i + 1];
    assert w[..|w| - 1] == m[..i] && w[|w| - 1] == m[i];
    if RoleOf(m[i].1) == PlainGpib {
      KeysAppend(gB, m[i].1, TaskHandle(GpibTask, n));
    }
    if RoleOf(m[i].1) == RfsgMasquerade {
      KeysAppend(fB, m[i].1, TaskHandle(RfsgTask, n));
    }
  }

  /** The DAQ loop starts with nothing walked, and ends with every device walked. */
  lemma DaqLoopEnds(devices: seq<string>, daq0: seq<(string, TaskHandle)>, daq: seq<(string, TaskHandle)>, n0: nat,
                    devs: seq<(string, DeviceSettings)>, digital: seq<(int, HardwareChannel)>,
                    analog: seq<(int, HardwareChannel)>)
    ensures DaqLoopAt(devices, 0, daq0, daq0, n0, devs, digital, analog)
    ensures devices[..|devices|] == devices
  {
    assert devices[..0] == [];
    assert Keys(daq0) + [] == Keys(daq0);
    assert devices[..|devices|] == devices;
  }

  /** The exit codes of generation after a successful cleanup: missing settings, and only
      they, give Failed_Settings_Null; with settings, a missing sequence, and only it, gives
      Failed_Sequence_Null; with both, the result is Success or Failed_Invalid_Data, the
      latter whenever the timebase channel is refused or the device list is missing. */
  predicate ExitOrder(status: BufferGenerationStatus, settingsSet: bool, sequenceSet: bool,
                      timebaseRefused: bool, devicesListed: bool)
  {
    && (status == Failed_Settings_Null <==> !settingsSet)
    && (status == Failed_Sequence_Null <==> settingsSet && !sequenceSet)
    && (settingsSet && sequenceSet ==> status == Success || status == Failed_Invalid_Data)
    && (settingsSet && sequenceSet && (timebaseRefused || !devicesListed) ==> status == Failed_Invalid_Data)
    && (status == Success ==> !timebaseRefused && devicesListed)
  }

  /** A timebase channel is set and a used digital channel is that very channel. */
  predicate TimebaseRefused(timebase: Option<string>, digital: seq<(int, HardwareChannel)>) {
    Configured(timebase) && TimebaseCollides(digital, timebase.value)
  }

  /** A live runtime's registries stay valid whatever its timebase task, and as more task ids
      are handed out. */
  lemma RegistriesValidOtherTimebase(vt: Option<TaskHandle>, vt': Option<TaskHandle>, daq: seq<(string, TaskHandle)>,
                                     gpib: seq<(HardwareChannel, TaskHandle)>, rs232: seq<(HardwareChannel, TaskHandle)>,
                                     rfsg: seq<(HardwareChannel, TaskHandle)>, n: nat, m: nat)
    requires RegistriesValid(true, vt, daq, gpib, rs232, rfsg, n) && n <= m
    ensures RegistriesValid(true, vt', daq, gpib, rs232, rfsg, m)
  {
  }

  /** Handing out more task ids keeps `RegistriesValid`. */
  lemma RegistriesValidLater(live: bool, vt: Option<TaskHandle>, daq: seq<(string, TaskHandle)>,
                             gpib: seq<(HardwareChannel, TaskHandle)>, rs232: seq<(HardwareChannel, TaskHandle)>,
                             rfsg: seq<(HardwareChannel, TaskHandle)>, n: nat, m: nat)
    requires RegistriesValid(live, vt, daq, gpib, rs232, rfsg, n) && n <= m
    ensures RegistriesValid(live, vt, daq, gpib, rs232, rfsg, m)
  {
  }

  /** The polling state while arming: a poll from the position read, `initialPosition`, is
      pending once the synchronising task is armed under the polling method; otherwise it is
      as it was. */
  predicate PollingAt(how: SoftwareTaskTriggerType, trig: Option<TaskHandle>, pending: bool, position: int,
                      initialPosition: Option<int>, pending0: bool, position0: int)
  {
    if how == PollBufferPosition && trig.Some?
    then pending && initialPosition == Some(position)
    else pending == pending0 && position == position0
  }

  class AtticusServerRuntime {
    const driver: Driver

    const serverSettings: ServerSettings
    const myHardwareChannels: seq<HardwareChannel>
    var settings: Option<SettingsData>
    var sequence: Option<SequenceData>

    /** False until the first cleanup: the four task registries are still null. */
    var tasksAllocated: bool
    var daqMxTasks: seq<(string, TaskHandle)>
    var gpibTasks: seq<(HardwareChannel, TaskHandle)>
    var rs232Tasks: seq<(HardwareChannel, TaskHandle)>
    var rfsgTasks: seq<(HardwareChannel, TaskHandle)>
    var variableTimebaseClockTask: Option<TaskHandle>

    var usedAnalogChannels: seq<(int, HardwareChannel)>
    var usedDigitalChannels: seq<(int, HardwareChannel)>
    var usedGpibChannels: seq<(int, HardwareChannel)>
    var usedRS232Channels: seq<(int, HardwareChannel)>
    var usedDaqMxDevices: Option<seq<string>>

    var madeConnections: seq<TerminalPair>
    var taskErrorsDetected: bool

    var softwareTriggeringTask: Option<TaskHandle>
    var softwareTimedTasksTriggered: bool
    var softwareTimedTriggerCount: int
    /** A polling trigger thread has been started and has not yet fired. */
    var pollingPending: bool
    var pollingInitialPosition: int

    var readyReaderLoopRunning: bool
    var readyReaderLoopAbort: bool

    /** Logical ids of GPIB channels reported as masquerading with no masquerade type. */
    ghost var misconfiguredGpibIds: seq<int>
    /** Duplicate-trigger counts that the handler reported (every tenth one). */
    ghost var reportedDuplicateCounts: seq<int>

    /** The device settings hold each device once, and the registries keep `RegistriesValid`. */
    ghost predicate Valid()
      reads this`tasksAllocated, this`variableTimebaseClockTask, this`daqMxTasks, this`gpibTasks, this`rs232Tasks,
            this`rfsgTasks, driver`nextId
    {
      && UniqueKeys(serverSettings.devicesSettings)
      && RegistriesValid(tasksAllocated, variableTimebaseClockTask, daqMxTasks, gpibTasks, rs232Tasks, rfsgTasks,
                         driver.nextId)
    }

    /** The driver events since the log was `l0`. */
    ghost function NewEvents(l0: seq<DriverEvent>): seq<DriverEvent>
      reads driver
      requires IsPrefix(l0, driver.log)
    {
      driver.log[|l0|..]
    }

    /** The generation inputs are still `i`. */
    ghost predicate InputsAre(i: GenerationInputs)
      reads this`usedDigitalChannels, this`usedAnalogChannels, this`usedDaqMxDevices, this`usedGpibChannels,
            this`usedRS232Channels, this`madeConnections, driver`nextId
    {
      Inputs() == i
    }

    /** What generation reads: the settings, the used-channel maps, the device list, the
        routes made so far and the driver's next task id. */
    ghost function Inputs(): GenerationInputs
      reads this`usedDigitalChannels, this`usedAnalogChannels, this`usedDaqMxDevices, this`usedGpibChannels,
            this`usedRS232Channels, this`madeConnections, driver`nextId
    {
      GenerationInputs(serverSettings.variableTimebaseOutputChannel, usedDigitalChannels, usedAnalogChannels,
                       usedDaqMxDevices, serverSettings.devicesSettings, usedGpibChannels, usedRS232Channels,
                       madeConnections, serverSettings.connections, driver.nextId)
    }

    constructor (d: Driver, ss: ServerSettings, hardware: seq<HardwareChannel>)
      requires UniqueKeys(ss.devicesSettings)
      ensures Valid()
      ensures driver == d && serverSettings == ss && myHardwareChannels == hardware
      ensures settings.None? && sequence.None? && !tasksAllocated && variableTimebaseClockTask.None?
      ensures usedDaqMxDevices.None? && madeConnections == [] && !taskErrorsDetected
      ensures softwareTriggeringTask.None? && !readyReaderLoopRunning && !readyReaderLoopAbort && !pollingPending
    {
      driver := d;
      serverSettings := ss;
      myHardwareChannels := hardware;
      settings := None;
      sequence := None;
      tasksAllocated := false;
      daqMxTasks := [];
      gpibTasks := [];
      rs232Tasks := [];
      rfsgTasks := [];
      variableTimebaseClockTask := None;
      usedAnalogChannels := [];
      usedDigitalChannels := [];
      usedGpibChannels := [];
      usedRS232Channels := [];
      usedDaqMxDevices := None;
      madeConnections := [];
      taskErrorsDetected := false;
      softwareTriggeringTask := None;
      softwareTimedTasksTriggered := false;
      softwareTimedTriggerCount := 0;
      pollingPending := false;
      pollingInitialPosition := 0;
      readyReaderLoopRunning := false;
      readyReaderLoopAbort := false;
      misconfiguredGpibIds := [];
      reportedDuplicateCounts := [];
    }

    /** `setSequence`: stores the sequence and reports success. */
    method SetSequence(s: SequenceData) returns (ok: bool)
      modifies this`sequence
      ensures sequence == Some(s) && ok
    {
      sequence := Some(s);
      ok := true;
    }

    /** `findMyChannels`: resets the four channel maps, resolves analog, digital, GPIB and
        RS232 bindings in that order, and stops at the first category with an offending
        binding (the source throws there). Only a complete resolution rebuilds the list of
        used DAQ devices: the analog devices, then the digital ones, each once. */
    method FindMyChannels() returns (failed: Option<ChannelType>)
      requires settings.Some?
      modifies this`usedAnalogChannels, this`usedDigitalChannels, this`usedGpibChannels,
               this`usedRS232Channels, this`usedDaqMxDevices
      ensures var s, name, inv := settings.value, serverSettings.serverName, myHardwareChannels;
        && failed == FailingCategory(s, name, inv)
        && usedAnalogChannels == Resolved(s.analog, name, inv)
        && usedDigitalChannels == (if failed == Some(Analog) then [] else Resolved(s.digital, name, inv))
        && usedGpibChannels == (if failed in {Some(Analog), Some(Digital)} then [] else Resolved(s.gpib, name, inv))
        && usedRS232Channels == (if failed in {Some(Analog), Some(Digital), Some(Gpib)} then []
                                 else Resolved(s.rs232, name, inv))
      ensures failed.Some? ==> usedDaqMxDevices == old(usedDaqMxDevices)
      ensures failed.None? ==>
        usedDaqMxDevices == Some(FirstOccurrences(DeviceNameList(usedAnalogChannels) + DeviceNameList(usedDigitalChannels)))
      ensures failed.None? ==> usedDaqMxDevices.Some? && NoDup(usedDaqMxDevices.value)
      ensures failed.None? ==> forall d :: d in usedDaqMxDevices.value <==>
        d in DeviceNames(usedAnalogChannels) + DeviceNames(usedDigitalChannels)
    {
      var s, name, inv := settings.value, serverSettings.serverName, myHardwareChannels;
      usedAnalogChannels := [];
      usedDigitalChannels := [];
      usedGpibChannels := [];
      usedRS232Channels := [];
      var offender: Option<LogicalChannel>;
      offender, usedAnalogChannels := FindChannels(s.analog, name, inv);
      if offender.Some? {
        return Some(Analog);
      }
      offender, usedDigitalChannels := FindChannels(s.digital, name, inv);
      if offender.Some? {
        return Some(Digital);
      }
      offender, usedGpibChannels := FindChannels(s.gpib, name, inv);
      if offender.Some? {
        return Some(Gpib);
      }
      offender, usedRS232Channels := FindChannels(s.rs232, name, inv);
      if offender.Some? {
        return Some(RS232);
      }
      var devices := CollectDevices(usedAnalogChannels, usedDigitalChannels);
      usedDaqMxDevices := Some(devices);
      failed := None;
    }

    /** `setSettings`: stores the settings, then resolves channels; `ok` is false where the
        source lets the resolution's exception escape, with the settings already stored and
        the channel maps as far as the resolution got: the failing category keeps the
        entries found before its offending binding, and the later categories are empty. */
    method SetSettings(s: SettingsData) returns (ok: bool)
      modifies this`settings, this`usedAnalogChannels, this`usedDigitalChannels, this`usedGpibChannels,
               this`usedRS232Channels, this`usedDaqMxDevices
      ensures settings == Some(s)
      ensures ok <==> FailingCategory(s, serverSettings.serverName, myHardwareChannels).None?
      ensures var name, inv, failed := serverSettings.serverName, myHardwareChannels,
                                      FailingCategory(s, serverSettings.serverName, myHardwareChannels);
        && usedAnalogChannels == Resolved(s.analog, name, inv)
        && usedDigitalChannels == (if failed == Some(Analog) then [] else Resolved(s.digital, name, inv))
        && usedGpibChannels == (if failed in {Some(Analog), Some(Digital)} then [] else Resolved(s.gpib, name, inv))
        && usedRS232Channels == (if failed in {Some(Analog), Some(Digital), Some(Gpib)} then []
                                 else Resolved(s.rs232, name, inv))
      ensures ok ==>
        usedDaqMxDevices == Some(FirstOccurrences(DeviceNameList(usedAnalogChannels) + DeviceNameList(usedDigitalChannels)))
      ensures ok ==> usedDaqMxDevices.Some? && NoDup(usedDaqMxDevices.value)
      ensures !ok ==> usedDaqMxDevices == old(usedDaqMxDevices)
    {
      settings := Some(s);
      var failed := FindMyChannels();
      ok := failed.None?;
    }

    /** `aTaskFinished`: a task that ended with an error raises the error flag; a clean
        finish only logs. */
    method ATaskFinished(error: bool)
      modifies this`taskErrorsDetected
      ensures taskErrorsDetected == (old(taskErrorsDetected) || error)
    {
      if error {
        taskErrorsDetected := true;
      }
    }

    /** `runSuccess`: the run succeeded iff no task reported an error since the last cleanup.
        `None` is the NullReferenceException on the still-null DAQ registry. */
    method RunSuccess() returns (r: Option<bool>)
      ensures r.None? <==> !tasksAllocated
      ensures r.Some? ==> (r.value <==> !taskErrorsDetected)
    {
      if !tasksAllocated {
        return None;
      }
      r := Some(!taskErrorsDetected);
    }

    /** `stopAndCleanupTasks`. The timebase task and every DAQ task get a stop and a dispose
        under their own handlers, so a failure there only turns the result false; the GPIB,
        RS232 and RFSG tasks are stopped without a handler, and the first failing `stop()`
        abandons the rest. Null registries become empty ones, and the error flag is cleared
        only by a cleanup that got to its end. */
    method StopAndCleanupTasks() returns (ok: bool)
      requires Valid()
      modifies this`tasksAllocated, this`variableTimebaseClockTask, this`daqMxTasks, this`gpibTasks,
               this`rs232Tasks, this`rfsgTasks, this`taskErrorsDetected, driver
      ensures Valid()
      ensures driver.nextId == old(driver.nextId) && IsPrefix(old(driver.log), driver.log)
      ensures CleanedUp(NewEvents(old(driver.log)), old(variableTimebaseClockTask), old(daqMxTasks),
                        old(gpibTasks), old(rs232Tasks), old(rfsgTasks), ok, old(taskErrorsDetected), taskErrorsDetected,
                        (gpibTasks, rs232Tasks, rfsgTasks))
      ensures tasksAllocated && variableTimebaseClockTask.None? && daqMxTasks == []
      ensures ok ==> gpibTasks == [] && rs232Tasks == [] && rfsgTasks == [] && !taskErrorsDetected
    {
      ghost var start := driver.log;
      ghost var vt0, daq0, g0, r0, f0, e0 :=
        variableTimebaseClockTask, daqMxTasks, gpibTasks, rs232Tasks, rfsgTasks, taskErrorsDetected;
      ok := CleanUpInPhases();
      CleanupLeaves(driver.log[|start|..], vt0, daq0, g0, r0, f0, ok, e0, taskErrorsDetected,
                    (gpibTasks, rs232Tasks, rfsgTasks), driver.nextId);
    }

    /** The two phases of `stopAndCleanupTasks` and the update of the error flag. */
    method CleanUpInPhases() returns (ok: bool)
      modifies this`tasksAllocated, this`variableTimebaseClockTask, this`daqMxTasks, this`gpibTasks,
               this`rs232Tasks, this`rfsgTasks, this`taskErrorsDetected, driver
      ensures driver.nextId == old(driver.nextId) && IsPrefix(old(driver.log), driver.log)
      ensures CleanedUp(driver.log[|old(driver.log)|..], old(variableTimebaseClockTask), old(daqMxTasks),
                        old(gpibTasks), old(rs232Tasks), old(rfsgTasks), ok, old(taskErrorsDetected), taskErrorsDetected,
                        (gpibTasks, rs232Tasks, rfsgTasks))
      ensures tasksAllocated && variableTimebaseClockTask.None? && daqMxTasks == []
    {
      ghost var start := driver.log;
      ghost var vt0, daq0 := variableTimebaseClockTask, daqMxTasks;
      var ans := StopGuardedTasks();
      ok := FinishCleanup(start, vt0, daq0, ans);
    }

    /** The unguarded phase after the guarded one logged since `start`, and the update of
        the error flag. */
    method FinishCleanup(ghost start: seq<DriverEvent>, ghost vt0: Option<TaskHandle>,
                         ghost daq0: seq<(string, TaskHandle)>, ans: bool) returns (ok: bool)
      requires IsPrefix(start, driver.log)
      requires Actions(driver.log[|start|..]) == GuardedPhase(vt0, daq0) && (ans <==> AllOk(driver.log[|start|..]))
      modifies this`gpibTasks, this`rs232Tasks, this`rfsgTasks, this`taskErrorsDetected, driver
      ensures driver.nextId == old(driver.nextId) && IsPrefix(start, driver.log)
      ensures CleanedUp(driver.log[|start|..], vt0, daq0, old(gpibTasks), old(rs232Tasks), old(rfsgTasks), ok,
                        old(taskErrorsDetected), taskErrorsDetected, (gpibTasks, rs232Tasks, rfsgTasks))
    {
      ghost var mid, g0, r0, f0, e0 := driver.log, gpibTasks, rs232Tasks, rfsgTasks, taskErrorsDetected;
      var escaped := StopSoftwareTimedTasks();
      // Only a cleanup that got to its end clears the flag.
      taskErrorsDetected := taskErrorsDetected && escaped;
      ok := ans && !escaped;
      CleanupAssembled(start, mid, driver.log, vt0, daq0, g0, r0, f0, ans, escaped, ok, e0, taskErrorsDetected,
                       (gpibTasks, rs232Tasks, rfsgTasks));
    }

    /** The guarded phase of the cleanup: a stop and a dispose for the timebase task and for
        every DAQ task, after which those registries are empty and no longer null. */
    method StopGuardedTasks() returns (allOk: bool)
      modifies this`tasksAllocated, this`variableTimebaseClockTask, this`daqMxTasks, driver
      ensures tasksAllocated && variableTimebaseClockTask.None? && daqMxTasks == []
      ensures driver.nextId == old(driver.nextId) && IsPrefix(old(driver.log), driver.log)
      ensures Actions(NewEvents(old(driver.log))) == GuardedPhase(old(variableTimebaseClockTask), old(daqMxTasks))
      ensures allOk <==> AllOk(NewEvents(old(driver.log)))
    {
      allOk := StopDisposeEach(driver, OptionList(variableTimebaseClockTask) + Values(daqMxTasks));
      variableTimebaseClockTask := None;
      daqMxTasks := [];
      tasksAllocated := true;
    }

    /** The unguarded phase of the cleanup: stops every GPIB, then RS232, then RFSG task; a
        registry is cleared once all its tasks are stopped, and a throwing `stop()` ends it. */
    method StopSoftwareTimedTasks() returns (escaped: bool)
      modifies this`gpibTasks, this`rs232Tasks, this`rfsgTasks, driver
      ensures driver.nextId == old(driver.nextId) && IsPrefix(old(driver.log), driver.log)
      ensures escaped ==> StoppedAtFailure(NewEvents(old(driver.log)), StopAll(SoftwareTimedTasks(old(gpibTasks), old(rs232Tasks), old(rfsgTasks))))
      ensures !escaped ==> Completed(NewEvents(old(driver.log)), StopAll(SoftwareTimedTasks(old(gpibTasks), old(rs232Tasks), old(rfsgTasks))))
      ensures (gpibTasks, rs232Tasks, rfsgTasks)
        == RegistriesAfter(old(gpibTasks), old(rs232Tasks), old(rfsgTasks),
                           if escaped then Some(|driver.log| - |old(driver.log)| - 1) else None)
    {
      ghost var start := driver.log;
      var g, r, f := gpibTasks, rs232Tasks, rfsgTasks;
      var sg := StopAll(Values(g));
      var okG := driver.PerformAll(sg);
      if !okG {
        assert StoppedAtFailure(driver.log[|start|..], StopAll(SoftwareTimedTasks(g, r, f))) by {
          StopAllAppend(Values(g), Values(r) + Values(f));
          assert SoftwareTimedTasks(g, r, f) == Values(g) + (Values(r) + Values(f));
          StoppedWithinLongerPlan(driver.log[|start|..], sg, StopAll(SoftwareTimedTasks(g, r, f)));
        }
        return true;
      }
      gpibTasks := [];
      ghost var afterG := driver.log;
      escaped := StopRs232AndRfsgTasks();
      ghost var a, b := afterG[|start|..], driver.log[|afterG|..];
      assert driver.log[|start|..] == a + b by {
        assert driver.log[..|afterG|] == afterG;
      }
      GpibThenRest(a, b, g, r, f);
    }

    /** The RS232 and RFSG part of the unguarded phase. */
    method StopRs232AndRfsgTasks() returns (escaped: bool)
      modifies this`rs232Tasks, this`rfsgTasks, driver
      ensures driver.nextId == old(driver.nextId) && IsPrefix(old(driver.log), driver.log)
      ensures var stops := StopAll(Values(old(rs232Tasks))) + StopAll(Values(old(rfsgTasks)));
        var es := NewEvents(old(driver.log));
        && (escaped ==> StoppedAtFailure(es, stops))
        && (!escaped ==> Completed(es, stops))
        && (rs232Tasks, rfsgTasks)
           == (if !escaped then ([], []) else if |es| - 1 < |old(rs232Tasks)| then (old(rs232Tasks), old(rfsgTasks))
               else ([], old(rfsgTasks)))
    {
      ghost var start := driver.log;
      var r, f := rs232Tasks, rfsgTasks;
      var sr, sf := StopAll(Values(r)), StopAll(Values(f));
      var okR := driver.PerformAll(sr);
      if !okR {
        assert StoppedAtFailure(driver.log[|start|..], sr + sf) by {
          StoppedWithinLongerPlan(driver.log[|start|..], sr, sr + sf);
        }
        return true;
      }
      rs232Tasks := [];
      ghost var afterR := driver.log;
      var okF := driver.PerformAll(sf);
      assert driver.log[|start|..] == driver.log[|start|..|afterR|] + driver.log[|afterR|..];
      if !okF {
        assert StoppedAtFailure(driver.log[|start|..], sr + sf) by {
          CompletedThenStopped(driver.log[|start|..|afterR|], driver.log[|afterR|..], sr, sf);
        }
        return true;
      }
      rfsgTasks := [];
      assert Completed(driver.log[|start|..], sr + sf) by {
        CompletedThenCompleted(driver.log[|start|..|afterR|], driver.log[|afterR|..], sr, sf);
      }
      escaped := false;
    }

    /** `generateDaqMxTaskOnDevice`: the device's settings are looked up (a missing entry
        throws); an enabled device with used channels gets a task, created by the driver,
        subscribed to `aTaskFinished` and registered under the device name, where a name
        already registered throws; the task's buffer size is then read for the log, a read
        that may throw once the task is registered. */
    method GenerateDaqMxTaskOnDevice(dev: string) returns (ok: bool)
      requires RegistriesValid(true, variableTimebaseClockTask, daqMxTasks, gpibTasks, rs232Tasks, rfsgTasks, driver.nextId)
      modifies this`daqMxTasks, driver
      ensures RegistriesValid(true, variableTimebaseClockTask, daqMxTasks, gpibTasks, rs232Tasks, rfsgTasks, driver.nextId)
      ensures IsPrefix(old(driver.log), driver.log) && old(driver.nextId) <= driver.nextId
      ensures var s := DaqDeviceStages(dev, old(driver.nextId), serverSettings.devicesSettings, usedDigitalChannels,
                                       usedAnalogChannels, Keys(old(daqMxTasks)));
        && Ran(s, NewEvents(old(driver.log)), ok)
        && daqMxTasks == old(daqMxTasks) + DaqOf(Noted(s, NewEvents(old(driver.log))))
      ensures var t := TaskHandle(DaqMxTask, old(driver.nextId));
        var wants := GetsDaqTask(serverSettings.devicesSettings, usedDigitalChannels, usedAnalogChannels, dev);
        && (Lookup(serverSettings.devicesSettings, dev).None? ==> !ok)
        && (!wants ==> daqMxTasks == old(daqMxTasks) && driver.log == old(driver.log) && driver.nextId == old(driver.nextId))
        && (wants ==> |NewEvents(old(driver.log))| > 0
                      && NewEvents(old(driver.log))[0] == DriverEvent(Create(t), driver.nextId > old(driver.nextId)))
        && (ok ==> driver.nextId == old(driver.nextId) + if wants then 1 else 0)
        && (ok && wants ==> daqMxTasks == old(daqMxTasks) + [(dev, t)]
                            && NewEvents(old(driver.log)) == [DriverEvent(Create(t), true), DriverEvent(Subscribe(t), true),
                                                              DriverEvent(QueryBuffer(t), true)])
        && (ok <==> Lookup(serverSettings.devicesSettings, dev).Some?
                    && (wants ==> driver.nextId > old(driver.nextId) && dev !in Keys(old(daqMxTasks))
                                  && AllOk(NewEvents(old(driver.log)))))
        && (!ok && daqMxTasks != old(daqMxTasks) ==>
              && daqMxTasks == old(daqMxTasks) + [(dev, t)]
              && NewEvents(old(driver.log)) == [DriverEvent(Create(t), true), DriverEvent(Subscribe(t), true),
                                                DriverEvent(QueryBuffer(t), false)])
    {
      ghost var l0, n0, k0 := driver.log, driver.nextId, Keys(daqMxTasks);
      ghost var devs, dig, an := serverSettings.devicesSettings, usedDigitalChannels, usedAnalogChannels;
      var ds := Lookup(serverSettings.devicesSettings, dev);
      if ds.None? || !(ds.value.deviceEnabled && DeviceHasUsedChannels(usedDigitalChannels, usedAnalogChannels, dev)) {
        DaqDeviceRun(dev, n0, devs, dig, an, k0, false, false);
        DaqDeviceEventFacts(dev, n0, devs, dig, an, k0, false, false);
        assert NewEvents(l0) == [];
        return ds.Some?;
      }
      ghost var created, queried;
      ok, created, queried := CreateDaqMxTask(dev);
      DaqDeviceRun(dev, n0, devs, dig, an, k0, created, queried);
      DaqDeviceEventFacts(dev, n0, devs, dig, an, k0, created, queried);
    }

    /** The part of `generateDaqMxTaskOnDevice` after the guards: the task is created,
        subscribed, registered under the device name (a name already registered throws), and
        its buffer size read. `created` and `queried` say how the two calls that may throw
        went. */
    method CreateDaqMxTask(dev: string) returns (ok: bool, ghost created: bool, ghost queried: bool)
      requires RegistriesValid(true, variableTimebaseClockTask, daqMxTasks, gpibTasks, rs232Tasks, rfsgTasks, driver.nextId)
      requires Lookup(serverSettings.devicesSettings, dev).Some?
      requires GetsDaqTask(serverSettings.devicesSettings, usedDigitalChannels, usedAnalogChannels, dev)
      modifies this`daqMxTasks, driver
      ensures RegistriesValid(true, variableTimebaseClockTask, daqMxTasks, gpibTasks, rs232Tasks, rfsgTasks, driver.nextId)
      ensures IsPrefix(old(driver.log), driver.log)
      ensures NewEvents(old(driver.log))
              == DaqDeviceEvents(dev, old(driver.nextId), serverSettings.devicesSettings, usedDigitalChannels,
                                 usedAnalogChannels, Keys(old(daqMxTasks)), created, queried)
      ensures ok == (created && dev !in Keys(old(daqMxTasks)) && queried)
      ensures daqMxTasks == old(daqMxTasks) + if created && dev !in Keys(old(daqMxTasks))
                                              then [(dev, TaskHandle(DaqMxTask, old(driver.nextId)))] else []
      ensures driver.nextId == old(driver.nextId) + if created then 1 else 0
    {
      ghost var l0 := driver.log;
      var t := driver.CreateTask(DaqMxTask);
      if t.None? {
        return false, false, false;
      }
      driver.Record(Subscribe(t.value));
      if dev in Keys(daqMxTasks) {
        assert NewEvents(l0) == [DriverEvent(Create(t.value), true), DriverEvent(Subscribe(t.value), true)];
        return false, true, false;
      }
      KeysAppend(daqMxTasks, dev, t.value);
      daqMxTasks := daqMxTasks + [(dev, t.value)];
      ok := driver.Perform(QueryBuffer(t.value));
      assert NewEvents(l0) == [DriverEvent(Create(t.value), true), DriverEvent(Subscribe(t.value), true),
                               DriverEvent(QueryBuffer(t.value), ok)];
      created, queried := true, ok;
    }

    /** The sequential branch of DAQ generation: `generateDaqMxTaskOnDevice` for each used
        device in order, ending at the first that throws. The run is that of
        `DaqLoopStages`, and the registry gained what it noted. Every used device must have
        settings, and the devices that get a task are exactly `DaqTaskDevices`, each
        registered once, with a task handed out by the driver during this call. */
    method GenerateDaqMxTasks(devices: seq<string>) returns (ok: bool)
      requires RegistriesValid(true, variableTimebaseClockTask, daqMxTasks, gpibTasks, rs232Tasks, rfsgTasks, driver.nextId)
      modifies this`daqMxTasks, driver
      ensures RegistriesValid(true, variableTimebaseClockTask, daqMxTasks, gpibTasks, rs232Tasks, rfsgTasks, driver.nextId)
      ensures IsPrefix(old(driver.log), driver.log) && old(driver.nextId) <= driver.nextId
      ensures DaqLoopRan(devices, old(driver.nextId), serverSettings.devicesSettings, usedDigitalChannels, usedAnalogChannels,
                         old(daqMxTasks), daqMxTasks, NewEvents(old(driver.log)), ok, driver.nextId)
      ensures ok ==> (Keys(daqMxTasks)
        == Keys(old(daqMxTasks)) + DaqTaskDevices(devices, serverSettings.devicesSettings, usedDigitalChannels, usedAnalogChannels))
      ensures ok ==> forall d :: d in devices ==> Lookup(serverSettings.devicesSettings, d).Some?
      ensures ok ==> IsPrefix(old(daqMxTasks), daqMxTasks)
      ensures ok ==> forall i :: |old(daqMxTasks)| <= i < |daqMxTasks| ==>
        daqMxTasks[i].1.kind == DaqMxTask && old(driver.nextId) <= daqMxTasks[i].1.id
    {
      ghost var daq0, n0, log0 := daqMxTasks, driver.nextId, driver.log;
      ghost var devs, dig, an := serverSettings.devicesSettings, usedDigitalChannels, usedAnalogChannels;
      DaqLoopEnds(devices, daq0, daq0, n0, devs, dig, an);
      LoopStarts(devices);
      assert daq0 + [] == daq0;
      var i := 0;
      while i < |devices|
        invariant 0 <= i <= |devices|
        invariant RegistriesValid(true, variableTimebaseClockTask, daqMxTasks, gpibTasks, rs232Tasks, rfsgTasks, driver.nextId)
        invariant IsPrefix(log0, driver.log) && n0 <= driver.nextId
        invariant DaqLoopRunAt(devices, i, daq0, daqMxTasks, n0, driver.nextId, devs, dig, an, driver.log[|log0|..])
      {
        ghost var mid := driver.log;
        ghost var before, n := daqMxTasks, driver.nextId;
        ok := GenerateDaqMxTaskOnDevice(devices[i]);
        SplitLog(log0, mid, driver.log);
        DaqLoopPass(devices, i, daq0, before, daqMxTasks, n0, n, driver.nextId, devs, dig, an,
                    mid[|log0|..], driver.log[|mid|..], ok);
        if !ok {
          return;
        }
        i := i + 1;
      }
      ok := true;
    }

    /** Generation for one used GPIB channel, by its role: a plain GPIB channel gets a GPIB
        task (created, its buffer generated with the settings of its device, a missing entry
        throwing, subscribed, registered); an RFSG masquerade gets an RFSG task (its device's
        settings looked up first, then created, subscribed, registered); a masquerade of type
        NONE is only reported. Registering a hardware channel twice throws. The run is that
        of `GpibChannelStages`, and each registry gained what it noted. */
    method GenerateGpibTask(id: int, hc: HardwareChannel) returns (ok: bool)
      requires RegistriesValid(true, variableTimebaseClockTask, daqMxTasks, gpibTasks, rs232Tasks, rfsgTasks, driver.nextId)
      modifies this`gpibTasks, this`rfsgTasks, this`misconfiguredGpibIds, driver
      ensures RegistriesValid(true, variableTimebaseClockTask, daqMxTasks, gpibTasks, rs232Tasks, rfsgTasks, driver.nextId)
      ensures IsPrefix(old(driver.log), driver.log) && old(driver.nextId) <= driver.nextId
      ensures var s := GpibChannelStages(id, hc, old(driver.nextId), serverSettings.devicesSettings, Keys(old(gpibTasks)),
                                         Keys(old(rfsgTasks)));
        var n := Noted(s, NewEvents(old(driver.log)));
        && Ran(s, NewEvents(old(driver.log)), ok)
        && gpibTasks == old(gpibTasks) + ChannelOf(n, GpibRegistry)
        && rfsgTasks == old(rfsgTasks) + ChannelOf(n, RfsgRegistry)
        && misconfiguredGpibIds == old(misconfiguredGpibIds) + MisconfiguredOf(n)
      ensures ok ==> driver.nextId == old(driver.nextId) + if RoleOf(hc) == UnconfiguredMasquerade then 0 else 1
      ensures RoleOf(hc) != PlainGpib ==> gpibTasks == old(gpibTasks)
      ensures RoleOf(hc) != RfsgMasquerade ==> rfsgTasks == old(rfsgTasks)
      ensures misconfiguredGpibIds == old(misconfiguredGpibIds) + (if RoleOf(hc) == UnconfiguredMasquerade then [id] else [])
      ensures RoleOf(hc) == UnconfiguredMasquerade ==> ok && driver.log == old(driver.log)
      ensures ok && RoleOf(hc) == PlainGpib ==> gpibTasks == old(gpibTasks) + [(hc, TaskHandle(GpibTask, old(driver.nextId)))]
      ensures ok && RoleOf(hc) == RfsgMasquerade ==> rfsgTasks == old(rfsgTasks) + [(hc, TaskHandle(RfsgTask, old(driver.nextId)))]
      ensures RoleOf(hc) != UnconfiguredMasquerade && Lookup(serverSettings.devicesSettings, hc.deviceName).None? ==> !ok
      ensures RoleOf(hc) == PlainGpib && hc in Keys(old(gpibTasks)) ==> !ok
      ensures RoleOf(hc) == RfsgMasquerade && hc in Keys(old(rfsgTasks)) ==> !ok
      ensures !ok ==> gpibTasks == old(gpibTasks) && rfsgTasks == old(rfsgTasks)
    {
      ghost var n0, gk, rk := driver.nextId, Keys(gpibTasks), Keys(rfsgTasks);
      ghost var devs := serverSettings.devicesSettings;
      ghost var l0, g0, f0, m0 := driver.log, gpibTasks, rfsgTasks, misconfiguredGpibIds;
      if !hc.gpibMasquerade {
        ghost var created, generated;
        ok, created, generated := CreateGpibTask(hc);
        PlainGpibStep(id, hc, n0, devs, gk, rk, created, generated, NewEvents(l0), ok, g0, gpibTasks, f0, m0);
      } else if hc.masqueradeType == MasqueradeNone {
        misconfiguredGpibIds := misconfiguredGpibIds + [id];
        ok := true;
        UnconfiguredRun(id, hc, n0, devs, gk, rk);
        EntryProjections(MisconfiguredEntry(id));
      } else {
        ghost var created;
        ok, created := CreateRfsgTask(hc);
        RfsgStep(id, hc, n0, devs, gk, rk, created, NewEvents(l0), ok, f0, rfsgTasks, g0, m0);
      }
    }

    /** The plain GPIB branch of generation: the task is created, its buffer generated with
        the settings of its device (a missing entry throws), subscribed and registered.
        `created` and `generated` say how the two calls that may throw went. */
    method CreateGpibTask(hc: HardwareChannel) returns (ok: bool, ghost created: bool, ghost generated: bool)
      requires RegistriesValid(true, variableTimebaseClockTask, daqMxTasks, gpibTasks, rs232Tasks, rfsgTasks, driver.nextId)
      modifies this`gpibTasks, driver
      ensures RegistriesValid(true, variableTimebaseClockTask, daqMxTasks, gpibTasks, rs232Tasks, rfsgTasks, driver.nextId)
      ensures IsPrefix(old(driver.log), driver.log)
      ensures var found := Lookup(serverSettings.devicesSettings, hc.deviceName).Some?;
        && NewEvents(old(driver.log)) == BufferedTaskEvents(TaskHandle(GpibTask, old(driver.nextId)), found, created, generated)
        && ok == (created && found && generated && hc !in Keys(old(gpibTasks)))
      ensures gpibTasks == old(gpibTasks) + if ok then [(hc, TaskHandle(GpibTask, old(driver.nextId)))] else []
      ensures driver.nextId == old(driver.nextId) + if created then 1 else 0
    {
      ghost var l0 := driver.log;
      created, generated := false, false;
      var t := driver.CreateTask(GpibTask);
      if t.None? {
        return false, false, false;
      }
      created := true;
      if Lookup(serverSettings.devicesSettings, hc.deviceName).None? {
        return false, true, false;
      }
      var built := driver.Perform(GenerateBuffer(t.value));
      generated := built;
      if !built {
        return false, true, false;
      }
      driver.Record(Subscribe(t.value));
      assert NewEvents(l0) == [DriverEvent(Create(t.value), true), DriverEvent(GenerateBuffer(t.value), true),
                               DriverEvent(Subscribe(t.value), true)];
      if hc in Keys(gpibTasks) {
        return false, true, true;
      }
      KeysAppend(gpibTasks, hc, t.value);
      gpibTasks := gpibTasks + [(hc, t.value)];
      ok := true;
    }

    /** The RFSG branch of generation: the device's settings are looked up (a missing entry
        throws), then the task is created, subscribed and registered. */
    method CreateRfsgTask(hc: HardwareChannel) returns (ok: bool, ghost created: bool)
      requires RegistriesValid(true, variableTimebaseClockTask, daqMxTasks, gpibTasks, rs232Tasks, rfsgTasks, driver.nextId)
      modifies this`rfsgTasks, driver
      ensures RegistriesValid(true, variableTimebaseClockTask, daqMxTasks, gpibTasks, rs232Tasks, rfsgTasks, driver.nextId)
      ensures IsPrefix(old(driver.log), driver.log)
      ensures var found := Lookup(serverSettings.devicesSettings, hc.deviceName).Some?;
        && NewEvents(old(driver.log)) == RfsgEvents(TaskHandle(RfsgTask, old(driver.nextId)), found, created)
        && ok == (found && created && hc !in Keys(old(rfsgTasks)))
      ensures rfsgTasks == old(rfsgTasks) + if ok then [(hc, TaskHandle(RfsgTask, old(driver.nextId)))] else []
      ensures driver.nextId == old(driver.nextId) + if created then 1 else 0
    {
      ghost var l0 := driver.log;
      created := false;
      if Lookup(serverSettings.devicesSettings, hc.deviceName).None? {
        return false, false;
      }
      var t := driver.CreateTask(RfsgTask);
      if t.None? {
        return false, false;
      }
      created := true;
      driver.Record(Subscribe(t.value));
      assert NewEvents(l0) == [DriverEvent(Create(t.value), true), DriverEvent(Subscribe(t.value), true)];
      if hc in Keys(rfsgTasks) {
        return false, true;
      }
      KeysAppend(rfsgTasks, hc, t.value);
      rfsgTasks := rfsgTasks + [(hc, t.value)];
      ok := true;
    }

    /** The GPIB region of generation: each used GPIB channel in order, ending at the first
        that throws. The run is that of `GpibLoopStages`, and each registry gained what it
        noted. Afterwards the GPIB registry gained exactly the plain channels and the RFSG
        registry exactly the RFSG masquerades, and every masquerade of type NONE was
        reported. */
    method GenerateGpibTasks() returns (ok: bool)
      requires RegistriesValid(true, variableTimebaseClockTask, daqMxTasks, gpibTasks, rs232Tasks, rfsgTasks, driver.nextId)
      modifies this`gpibTasks, this`rfsgTasks, this`misconfiguredGpibIds, driver
      ensures RegistriesValid(true, variableTimebaseClockTask, daqMxTasks, gpibTasks, rs232Tasks, rfsgTasks, driver.nextId)
      ensures IsPrefix(old(driver.log), driver.log) && old(driver.nextId) <= driver.nextId
      ensures GpibLoopRan(usedGpibChannels, old(driver.nextId), serverSettings.devicesSettings, old(gpibTasks),
                          old(rfsgTasks), old(misconfiguredGpibIds), NewEvents(old(driver.log)), ok, gpibTasks, rfsgTasks,
                          misconfiguredGpibIds, driver.nextId)
      ensures ok ==> Keys(gpibTasks) == Keys(old(gpibTasks)) + ChannelsWithRole(usedGpibChannels, PlainGpib)
      ensures ok ==> Keys(rfsgTasks) == Keys(old(rfsgTasks)) + ChannelsWithRole(usedGpibChannels, RfsgMasquerade)
      ensures ok ==> misconfiguredGpibIds == old(misconfiguredGpibIds) + IdsWithRole(usedGpibChannels, UnconfiguredMasquerade)
    {
      ghost var g0, f0, mis0, log0, n0 := gpibTasks, rfsgTasks, misconfiguredGpibIds, driver.log, driver.nextId;
      ghost var devs := serverSettings.devicesSettings;
      var m := usedGpibChannels;
      GpibLoopBegins(m, g0, f0, mis0, n0, devs);
      var i := 0;
      while i < |m|
        invariant 0 <= i <= |m|
        invariant RegistriesValid(true, variableTimebaseClockTask, daqMxTasks, gpibTasks, rs232Tasks, rfsgTasks, driver.nextId)
        invariant IsPrefix(log0, driver.log) && n0 <= driver.nextId
        invariant GpibLoopRunAt(m, i, g0, f0, mis0, gpibTasks, rfsgTasks, misconfiguredGpibIds, n0, driver.nextId, devs,
                                driver.log[|log0|..])
      {
        ghost var mid := driver.log;
        ghost var gB, fB, misB, n := gpibTasks, rfsgTasks, misconfiguredGpibIds, driver.nextId;
        ok := GenerateGpibTask(m[i].0, m[i].1);
        SplitLog(log0, mid, driver.log);
        if !ok {
          GpibLoopStop(m, i, g0, f0, mis0, gB, fB, misB, gpibTasks, rfsgTasks, misconfiguredGpibIds, n0, n, devs,
                       mid[|log0|..], driver.log[|mid|..]);
          return;
        }
        GpibLoopPass(m, i, g0, f0, mis0, gB, fB, misB, gpibTasks, rfsgTasks, misconfiguredGpibIds, n0, n, driver.nextId,
                     devs, mid[|log0|..], driver.log[|mid|..]);
        i := i + 1;
      }
      GpibLoopEnds(m, g0, f0, mis0, gpibTasks, rfsgTasks, misconfiguredGpibIds, n0, driver.nextId, devs,
                   driver.log[|log0|..]);
      ok := true;
    }

    /** Generation for one used RS232 channel: a serial session and task are created, the
        buffer is generated with the settings stored under "Serial" (a missing entry
        throws), the task is subscribed and registered; a channel registered twice throws.
        The run is that of `Rs232ChannelStages`, and the registry gained what it noted. */
    method GenerateRS232Task(hc: HardwareChannel) returns (ok: bool)
      requires RegistriesValid(true, variableTimebaseClockTask, daqMxTasks, gpibTasks, rs232Tasks, rfsgTasks, driver.nextId)
      modifies this`rs232Tasks, driver
      ensures RegistriesValid(true, variableTimebaseClockTask, daqMxTasks, gpibTasks, rs232Tasks, rfsgTasks, driver.nextId)
      ensures IsPrefix(old(driver.log), driver.log) && old(driver.nextId) <= driver.nextId
      ensures var s := Rs232ChannelStages(hc, old(driver.nextId), serverSettings.devicesSettings, Keys(old(rs232Tasks)));
        && Ran(s, NewEvents(old(driver.log)), ok)
        && rs232Tasks == old(rs232Tasks) + ChannelOf(Noted(s, NewEvents(old(driver.log))), Rs232Registry)
      ensures ok ==> driver.nextId == old(driver.nextId) + 1
      ensures ok ==> rs232Tasks == old(rs232Tasks) + [(hc, TaskHandle(RS232Task, old(driver.nextId)))]
      ensures Lookup(serverSettings.devicesSettings, "Serial").None? ==> !ok
      ensures hc in Keys(old(rs232Tasks)) ==> !ok
      ensures !ok ==> rs232Tasks == old(rs232Tasks)
    {
      ghost var l0, r0, n0 := driver.log, rs232Tasks, driver.nextId;
      ghost var created, generated;
      ok, created, generated := CreateRS232Task(hc);
      Rs232Step(hc, n0, serverSettings.devicesSettings, Keys(r0), created, generated, NewEvents(l0), ok, r0, rs232Tasks);
    }

    /** The driver calls of RS232 generation: the task is created, its buffer generated with
        the settings stored under "Serial" (a missing entry throws), subscribed and
        registered. `created` and `generated` say how the two calls that may throw went. */
    method CreateRS232Task(hc: HardwareChannel) returns (ok: bool, ghost created: bool, ghost generated: bool)
      requires RegistriesValid(true, variableTimebaseClockTask, daqMxTasks, gpibTasks, rs232Tasks, rfsgTasks, driver.nextId)
      modifies this`rs232Tasks, driver
      ensures RegistriesValid(true, variableTimebaseClockTask, daqMxTasks, gpibTasks, rs232Tasks, rfsgTasks, driver.nextId)
      ensures IsPrefix(old(driver.log), driver.log)
      ensures var found := Lookup(serverSettings.devicesSettings, "Serial").Some?;
        && NewEvents(old(driver.log)) == BufferedTaskEvents(TaskHandle(RS232Task, old(driver.nextId)), found, created, generated)
        && ok == (created && found && generated && hc !in Keys(old(rs232Tasks)))
      ensures rs232Tasks == old(rs232Tasks) + if ok then [(hc, TaskHandle(RS232Task, old(driver.nextId)))] else []
      ensures driver.nextId == old(driver.nextId) + if created then 1 else 0
    {
      ghost var l0 := driver.log;
      created, generated := false, false;
      var t := driver.CreateTask(RS232Task);
      if t.None? {
        return false, false, false;
      }
      created := true;
      if Lookup(serverSettings.devicesSettings, "Serial").None? {
        return false, true, false;
      }
      var built := driver.Perform(GenerateBuffer(t.value));
      generated := built;
      if !built {
        return false, true, false;
      }
      driver.Record(Subscribe(t.value));
      assert NewEvents(l0) == [DriverEvent(Create(t.value), true), DriverEvent(GenerateBuffer(t.value), true),
                               DriverEvent(Subscribe(t.value), true)];
      if hc in Keys(rs232Tasks) {
        return false, true, true;
      }
      KeysAppend(rs232Tasks, hc, t.value);
      rs232Tasks := rs232Tasks + [(hc, t.value)];
      ok := true;
    }

    /** The RS232 region of generation: each used RS232 channel in order, ending at the first
        that throws. The run is that of `Rs232LoopStages`, and the registry gained what it
        noted; afterwards it gained exactly the used RS232 channels, one task id each. */
    method GenerateRS232Tasks() returns (ok: bool)
      requires RegistriesValid(true, variableTimebaseClockTask, daqMxTasks, gpibTasks, rs232Tasks, rfsgTasks, driver.nextId)
      modifies this`rs232Tasks, driver
      ensures RegistriesValid(true, variableTimebaseClockTask, daqMxTasks, gpibTasks, rs232Tasks, rfsgTasks, driver.nextId)
      ensures IsPrefix(old(driver.log), driver.log) && old(driver.nextId) <= driver.nextId
      ensures Rs232LoopRan(usedRS232Channels, old(driver.nextId), serverSettings.devicesSettings, old(rs232Tasks),
                           NewEvents(old(driver.log)), ok, rs232Tasks, driver.nextId)
      ensures ok ==> Keys(rs232Tasks) == Keys(old(rs232Tasks)) + Values(usedRS232Channels)
      ensures usedRS232Channels != [] && Lookup(serverSettings.devicesSettings, "Serial").None? ==> !ok
    {
      ghost var r0, log0, n0 := rs232Tasks, driver.log, driver.nextId;
      ghost var devs := serverSettings.devicesSettings;
      var m := usedRS232Channels;
      Rs232LoopBegins(m, r0, n0, devs);
      var i := 0;
      while i < |m|
        invariant 0 <= i <= |m|
        invariant RegistriesValid(true, variableTimebaseClockTask, daqMxTasks, gpibTasks, rs232Tasks, rfsgTasks, driver.nextId)
        invariant IsPrefix(log0, driver.log) && n0 <= driver.nextId
        invariant Rs232LoopRunAt(m, i, r0, rs232Tasks, n0, driver.nextId, devs, driver.log[|log0|..])
      {
        ghost var mid := driver.log;
        ghost var before, n := rs232Tasks, driver.nextId;
        ok := GenerateRS232Task(m[i].1);
        SplitLog(log0, mid, driver.log);
        if !ok {
          Rs232LoopStop(m, i, r0, before, rs232Tasks, n0, n, devs, mid[|log0|..], driver.log[|mid|..]);
          return;
        }
        Rs232LoopPass(m, i, r0, before, rs232Tasks, n0, n, driver.nextId, devs, mid[|log0|..], driver.log[|mid|..]);
        i := i + 1;
      }
      Rs232LoopEnds(m, r0, rs232Tasks, n0, driver.nextId, devs, driver.log[|log0|..]);
      ok := true;
    }

    /** The variable timebase region of generation. With no timebase channel configured the
        task is null. Otherwise a used digital channel whose upper-cased physical name is the
        timebase channel is refused. When a used digital channel shares the timebase device,
        the combined generator builds the task with the settings stored under the device
        name lower-cased with every 'd' then upper-cased (a missing entry throws) and takes
        the digital channels it generates, `consumed`, out of the digital map; otherwise the
        plain timebase generator builds it. The task is then subscribed. */
    method GenerateTimebaseTask(consumed: set<int>) returns (ok: bool)
      modifies this`variableTimebaseClockTask, this`usedDigitalChannels, driver
      ensures IsPrefix(old(driver.log), driver.log) && old(driver.nextId) <= driver.nextId
      ensures var tb := serverSettings.variableTimebaseOutputChannel;
        && (!Configured(tb) ==> ok && variableTimebaseClockTask.None? && driver.log == old(driver.log))
        && (Configured(tb) && TimebaseCollides(old(usedDigitalChannels), tb.value) ==>
              !ok && driver.log == old(driver.log))
        && ((Configured(tb) && SharesTimebaseDevice(old(usedDigitalChannels), tb.value)
             && Lookup(serverSettings.devicesSettings, RecapitalisedDeviceName(tb.value)).None?) ==>
              !ok && driver.log == old(driver.log))
        && (ok && Configured(tb) && SharesTimebaseDevice(old(usedDigitalChannels), tb.value) ==>
              Lookup(serverSettings.devicesSettings, RecapitalisedDeviceName(tb.value)).Some?)
        && (ok && Configured(tb) ==>
              && variableTimebaseClockTask == Some(TaskHandle(TimebaseTask, old(driver.nextId)))
              && NewEvents(old(driver.log)) == [DriverEvent(Create(TaskHandle(TimebaseTask, old(driver.nextId))), true),
                                                DriverEvent(Subscribe(TaskHandle(TimebaseTask, old(driver.nextId))), true)])
        && (ok ==> usedDigitalChannels
                   == if Configured(tb) && SharesTimebaseDevice(old(usedDigitalChannels), tb.value)
                      then WithoutIds(old(usedDigitalChannels), consumed) else old(usedDigitalChannels))
      ensures !ok ==> usedDigitalChannels == old(usedDigitalChannels)
      ensures TimebaseRan(old(Inputs()), consumed, NewEvents(old(driver.log)), ok, variableTimebaseClockTask, driver.nextId,
                          usedDigitalChannels)
      ensures !ok ==> variableTimebaseClockTask == old(variableTimebaseClockTask)
    {
      ghost var log0, dig0, n0 := driver.log, usedDigitalChannels, driver.nextId;
      var tb := serverSettings.variableTimebaseOutputChannel;
      ghost var devs := serverSettings.devicesSettings;
      EntryProjections(TimebaseEntry(TaskHandle(TimebaseTask, n0)));
      if !(tb.Some? && tb.value != "") {
        variableTimebaseClockTask := None;
        TimebaseRun(tb, dig0, devs, n0, false);
        return true;
      }
      var collides, sharesDevice := ScanTimebaseChannel(usedDigitalChannels, tb.value);
      if collides {
        TimebaseRun(tb, dig0, devs, n0, false);
        return false;
      }
      if sharesDevice && Lookup(serverSettings.devicesSettings, RecapitalisedDeviceName(tb.value)).None? {
        TimebaseRun(tb, dig0, devs, n0, false);
        return false;
      }
      // Either generator creates the task; the combined one also consumes digital channels.
      var t := driver.CreateTask(TimebaseTask);
      TimebaseRun(tb, dig0, devs, n0, t.Some?);
      if t.None? {
        return false;
      }
      if sharesDevice {
        usedDigitalChannels := WithoutIds(usedDigitalChannels, consumed);
      }
      variableTimebaseClockTask := t;
      driver.Record(Subscribe(t.value));
      assert driver.log[|log0|..] == [DriverEvent(Create(t.value), true), DriverEvent(Subscribe(t.value), true)];
      ok := true;
    }

    /** `makeTerminalConnections`: disconnects every made pair the settings no longer ask
        for, then connects every desired pair not yet made. A driver call that throws ends it,
        and the list keeps what the pass had done by then: `inRemoval` says which pass
        failed and `stoppedAt` at which pair of the list it walked. */
    method MakeTerminalConnections() returns (ok: bool, ghost inRemoval: bool, ghost stoppedAt: nat)
      modifies this`madeConnections, driver
      ensures IsPrefix(old(driver.log), driver.log) && driver.nextId == old(driver.nextId)
      ensures ok ==> madeConnections == Reconciled(old(madeConnections), serverSettings.connections)
      ensures ok ==> Completed(NewEvents(old(driver.log)), ReconcileActions(old(madeConnections), serverSettings.connections))
      ensures !ok ==> StoppedAtFailure(NewEvents(old(driver.log)),
                                       ReconcileActions(old(madeConnections), serverSettings.connections))
      ensures !ok && inRemoval ==>
        && stoppedAt < |old(madeConnections)| && old(madeConnections)[stoppedAt] !in serverSettings.connections
        && madeConnections == Kept(old(madeConnections)[..stoppedAt], serverSettings.connections)
                              + old(madeConnections)[stoppedAt..]
      ensures !ok && !inRemoval ==>
        && stoppedAt < |serverSettings.connections| && serverSettings.connections[stoppedAt] !in madeConnections
        && madeConnections == AppendMissing(Kept(old(madeConnections), serverSettings.connections),
                                            serverSettings.connections[..stoppedAt])
    {
      ghost var made := madeConnections;
      ghost var l0 := driver.log;
      ok, stoppedAt := DisconnectStale();
      inRemoval := !ok;
      ghost var l1 := driver.log;
      if !ok {
        PassesCompose(made, serverSettings.connections, l1[|l0|..], []);
        return;
      }
      ok, stoppedAt := ConnectMissing();
      PassEnds(Kept(made, serverSettings.connections), serverSettings.connections);
      SplitLog(l0, l1, driver.log);
      PassesCompose(made, serverSettings.connections, l1[|l0|..], driver.log[|l1|..]);
    }

    /** The removal pass: walks a copy of the made list and, for each pair no longer desired,
        disconnects it and removes its first occurrence from the list itself. A disconnect
        that throws, at position `stoppedAt` of the copy, leaves the list as the pass had
        made it: the kept pairs of the walked part, then the rest unwalked. */
    method DisconnectStale() returns (ok: bool, ghost stoppedAt: nat)
      modifies this`madeConnections, driver
      ensures IsPrefix(old(driver.log), driver.log) && driver.nextId == old(driver.nextId)
      ensures ok ==> madeConnections == Kept(old(madeConnections), serverSettings.connections)
      ensures ok ==> Completed(NewEvents(old(driver.log)), DisconnectAll(Stale(old(madeConnections), serverSettings.connections)))
      ensures !ok ==> StoppedAtFailure(NewEvents(old(driver.log)),
                                       DisconnectAll(Stale(old(madeConnections), serverSettings.connections)))
      ensures !ok ==>
        && stoppedAt < |old(madeConnections)| && old(madeConnections)[stoppedAt] !in serverSettings.connections
        && madeConnections == Kept(old(madeConnections)[..stoppedAt], serverSettings.connections)
                              + old(madeConnections)[stoppedAt..]
        && |NewEvents(old(driver.log))| == |Stale(old(madeConnections)[..stoppedAt], serverSettings.connections)| + 1
    {
      var desired := serverSettings.connections;
      ghost var l0 := driver.log;
      var temp := madeConnections;
      var cur := temp;
      RemovalPassEnds(temp, desired, cur, []);
      var i := 0;
      while i < |temp|
        invariant 0 <= i <= |temp|
        invariant IsPrefix(l0, driver.log) && driver.nextId == old(driver.nextId)
        invariant RemovalPassAt(temp, desired, i, cur, driver.log[|l0|..])
      {
        var pair := temp[i];
        ghost var before := driver.log[|l0|..];
        if pair !in desired {
          ghost var mid := driver.log;
          var r := driver.Perform(Disconnect(pair));
          assert driver.log[|mid|..] == [DriverEvent(Disconnect(pair), r)];
          SplitLog(l0, mid, driver.log);
          RemovalPassStep(temp, desired, i, cur, before, r);
          if !r {
            assert RemovalStoppedAt(temp, desired, i, cur, driver.log[|l0|..]);
            madeConnections := cur;
            return false, i;
          }
          cur := RemoveFirst(cur, pair);
        } else {
          RemovalPassStep(temp, desired, i, cur, before, true);
        }
        i := i + 1;
      }
      RemovalPassEnds(temp, desired, cur, driver.log[|l0|..]);
      madeConnections := cur;
      ok, stoppedAt := true, 0;
    }

    /** The adding pass: for each desired pair not in the list, connects it and appends it.
        A connect that throws, at position `stoppedAt` of the desired list, leaves the list
        with the pairs appended before it. */
    method ConnectMissing() returns (ok: bool, ghost stoppedAt: nat)
      modifies this`madeConnections, driver
      ensures IsPrefix(old(driver.log), driver.log) && driver.nextId == old(driver.nextId)
      ensures ok ==> madeConnections == AppendMissing(old(madeConnections), serverSettings.connections)
      ensures ok ==> Completed(NewEvents(old(driver.log)),
                               ConnectsUpTo(old(madeConnections), serverSettings.connections, |serverSettings.connections|))
      ensures !ok ==> StoppedAtFailure(NewEvents(old(driver.log)),
                                       ConnectsUpTo(old(madeConnections), serverSettings.connections, |serverSettings.connections|))
      ensures !ok ==>
        && stoppedAt < |serverSettings.connections| && serverSettings.connections[stoppedAt] !in madeConnections
        && madeConnections == AppendMissing(old(madeConnections), serverSettings.connections[..stoppedAt])
        && |NewEvents(old(driver.log))| == |ConnectsUpTo(old(madeConnections), serverSettings.connections, stoppedAt)| + 1
    {
      var desired := serverSettings.connections;
      ghost var l0 := driver.log;
      ghost var c0 := madeConnections;
      var cur := madeConnections;
      PassEnds(c0, desired);
      var j := 0;
      while j < |desired|
        invariant 0 <= j <= |desired|
        invariant IsPrefix(l0, driver.log) && driver.nextId == old(driver.nextId)
        invariant AddingPassAt(c0, desired, j, cur, driver.log[|l0|..])
      {
        var pair := desired[j];
        ghost var before := driver.log[|l0|..];
        if pair !in cur {
          ghost var mid := driver.log;
          var r := driver.Perform(Connect(pair));
          assert driver.log[|mid|..] == [DriverEvent(Connect(pair), r)];
          SplitLog(l0, mid, driver.log);
          AddingPassStep(c0, desired, j, cur, before, r);
          if !r {
            assert AddingStoppedAt(c0, desired, j, cur, driver.log[|l0|..]);
            madeConnections := cur;
            return false, j;
          }
          cur := cur + [pair];
        } else {
          AddingPassStep(c0, desired, j, cur, before, true);
        }
        j := j + 1;
      }
      madeConnections := cur;
      ok, stoppedAt := true, 0;
    }

    /** `unmakeTerminalConnections`: disconnects every made pair in order, then clears the list. */
    method UnmakeTerminalConnections() returns (ok: bool)
      modifies this`madeConnections, driver
      ensures IsPrefix(old(driver.log), driver.log) && driver.nextId == old(driver.nextId)
      ensures ok ==> madeConnections == [] && Completed(NewEvents(old(driver.log)), DisconnectAll(old(madeConnections)))
      ensures !ok ==> madeConnections == old(madeConnections)
                      && StoppedAtFailure(NewEvents(old(driver.log)), DisconnectAll(old(madeConnections)))
    {
      ok := driver.PerformAll(DisconnectAll(madeConnections));
      if ok {
        madeConnections := [];
      }
    }

    /** `resetAllDevices`: resets every DAQ device the driver reports, in order, which drops
        every terminal route, so the made-connection list is cleared; a reset that throws
        ends it with the list left as it was. */
    method ResetAllDevices(devices: seq<string>) returns (ok: bool)
      modifies this`madeConnections, driver
      ensures IsPrefix(old(driver.log), driver.log) && driver.nextId == old(driver.nextId)
      ensures ok ==> madeConnections == [] && Completed(NewEvents(old(driver.log)), ResetAll(devices))
      ensures !ok ==> madeConnections == old(madeConnections) && StoppedAtFailure(NewEvents(old(driver.log)), ResetAll(devices))
    {
      ok := driver.PerformAll(ResetAll(devices));
      if ok {
        madeConnections := [];
      }
    }

    /** `generateBuffers`, on the sequential DAQ path: a cleanup that fails gives
        Failed_Buffer_Underrun, and only it does; then missing settings, then a missing
        sequence, give their own codes; then the timebase, DAQ, GPIB, RS232 and
        terminal-routing steps run, and a failure in any of them (a thrown exception in the
        source) gives Failed_Invalid_Data. `cleanedLog` is the log once the cleanup is done
        and `cleaned` the cleanup's result. */
    method GenerateBuffers(consumed: set<int>)
      returns (status: BufferGenerationStatus, ghost cleanedLog: seq<DriverEvent>, ghost cleaned: bool)
      requires Valid()
      modifies this`tasksAllocated, this`variableTimebaseClockTask, this`daqMxTasks, this`gpibTasks,
               this`rs232Tasks, this`rfsgTasks, this`taskErrorsDetected, this`usedDigitalChannels,
               this`madeConnections, this`misconfiguredGpibIds, driver
      ensures Valid()
      ensures IsPrefix(old(driver.log), cleanedLog) && IsPrefix(cleanedLog, driver.log)
      ensures status == Failed_Buffer_Underrun <==> !cleaned
      ensures cleaned ==> CleanedUp(cleanedLog[|old(driver.log)|..], old(variableTimebaseClockTask), old(daqMxTasks),
                                    old(gpibTasks), old(rs232Tasks), old(rfsgTasks), true, old(taskErrorsDetected),
                                    false, ([], [], []))
      ensures !cleaned ==> CleanedUp(cleanedLog[|old(driver.log)|..], old(variableTimebaseClockTask), old(daqMxTasks),
                                     old(gpibTasks), old(rs232Tasks), old(rfsgTasks), false, old(taskErrorsDetected),
                                     taskErrorsDetected, (gpibTasks, rs232Tasks, rfsgTasks))
      ensures tasksAllocated && !Configured(serverSettings.variableTimebaseOutputChannel) ==> variableTimebaseClockTask.None?
      ensures !cleaned || status == Failed_Settings_Null || status == Failed_Sequence_Null ==>
        && driver.log == cleanedLog && variableTimebaseClockTask.None? && daqMxTasks == []
        && usedDigitalChannels == old(usedDigitalChannels) && madeConnections == old(madeConnections)
      ensures cleaned ==>
        && tasksAllocated && !taskErrorsDetected
        && ExitOrder(status, settings.Some?, sequence.Some?,
                     TimebaseRefused(serverSettings.variableTimebaseOutputChannel, old(usedDigitalChannels)),
                     usedDaqMxDevices.Some?)
      ensures status == Success ==> BuffersGenerated(old(madeConnections))
      ensures cleaned && settings.Some? && sequence.Some? ==>
        GenerationRan(old(Inputs()), consumed, driver.log[|cleanedLog|..], status == Success, variableTimebaseClockTask,
                      daqMxTasks, gpibTasks, rfsgTasks, rs232Tasks, old(misconfiguredGpibIds), misconfiguredGpibIds)
    {
      ghost var log0, vt0, daq0, g0, r0, f0, e0 :=
        driver.log, variableTimebaseClockTask, daqMxTasks, gpibTasks, rs232Tasks, rfsgTasks, taskErrorsDetected;
      ghost var inputs := Inputs();
      assert inputs.digital == usedDigitalChannels && inputs.made == madeConnections;
      var ok := StopAndCleanupTasks();
      cleanedLog, cleaned := driver.log, ok;
      if ok {
        assert CleanedUp(cleanedLog[|log0|..], vt0, daq0, g0, r0, f0, true, e0, false, ([], [], []));
        status := GenerateAfterCleanup(consumed, inputs);
      } else {
        status := Failed_Buffer_Underrun;
      }
    }

    /** Generation once a cleanup succeeded: the null checks, then the generation steps. */
    method GenerateAfterCleanup(consumed: set<int>, ghost inputs: GenerationInputs) returns (status: BufferGenerationStatus)
      requires Valid() && tasksAllocated && InputsAre(inputs)
      requires variableTimebaseClockTask.None? && daqMxTasks == [] && gpibTasks == [] && rs232Tasks == [] && rfsgTasks == []
      modifies this`variableTimebaseClockTask, this`daqMxTasks, this`gpibTasks, this`rs232Tasks, this`rfsgTasks,
               this`usedDigitalChannels, this`madeConnections, this`misconfiguredGpibIds, driver
      ensures Valid() && tasksAllocated && taskErrorsDetected == old(taskErrorsDetected)
      ensures IsPrefix(old(driver.log), driver.log)
      ensures !Configured(serverSettings.variableTimebaseOutputChannel) ==> variableTimebaseClockTask.None?
      ensures ExitOrder(status, settings.Some?, sequence.Some?,
                        TimebaseRefused(serverSettings.variableTimebaseOutputChannel, inputs.digital),
                        usedDaqMxDevices.Some?)
      ensures status in {Failed_Settings_Null, Failed_Sequence_Null} ==>
        && driver.log == old(driver.log) && variableTimebaseClockTask.None? && daqMxTasks == []
        && usedDigitalChannels == inputs.digital && madeConnections == inputs.made
      ensures status == Success ==> BuffersGenerated(inputs.made)
      ensures settings.Some? && sequence.Some? ==>
        GenerationRan(inputs, consumed, NewEvents(old(driver.log)), status == Success, variableTimebaseClockTask,
                      daqMxTasks, gpibTasks, rfsgTasks, rs232Tasks, old(misconfiguredGpibIds), misconfiguredGpibIds)
    {
      if settings.None? {
        return Failed_Settings_Null;
      }
      if sequence.None? {
        return Failed_Sequence_Null;
      }
      var ok := GenerateTasksAndRoutes(consumed);
      status := if ok then Success else Failed_Invalid_Data;
    }

    /** The state after a generation that succeeded: one DAQ task per used device the rule
        selects, one GPIB or RFSG task per used GPIB channel of that role, one RS232 task
        per used RS232 channel, the timebase task exactly when a timebase channel is set,
        and the terminal routes reconciled with the settings. */
    ghost predicate BuffersGenerated(made0: seq<TerminalPair>)
      reads this`usedDaqMxDevices, this`daqMxTasks, this`usedDigitalChannels, this`usedAnalogChannels,
            this`variableTimebaseClockTask, this`gpibTasks, this`rfsgTasks, this`rs232Tasks,
            this`usedGpibChannels, this`usedRS232Channels, this`madeConnections
    {
      DeviceTasksGenerated() && ChannelTasksGenerated(made0)
    }

    ghost predicate DeviceTasksGenerated()
      reads this`usedDaqMxDevices, this`daqMxTasks, this`usedDigitalChannels, this`usedAnalogChannels,
            this`variableTimebaseClockTask
    {
      && usedDaqMxDevices.Some?
      && Keys(daqMxTasks) == DaqTaskDevices(usedDaqMxDevices.value, serverSettings.devicesSettings,
                                            usedDigitalChannels, usedAnalogChannels)
      && (variableTimebaseClockTask.Some? <==> Configured(serverSettings.variableTimebaseOutputChannel))
    }

    ghost predicate ChannelTasksGenerated(made0: seq<TerminalPair>)
      reads this`gpibTasks, this`rfsgTasks, this`rs232Tasks, this`usedGpibChannels, this`usedRS232Channels,
            this`madeConnections
    {
      && Keys(gpibTasks) == ChannelsWithRole(usedGpibChannels, PlainGpib)
      && Keys(rfsgTasks) == ChannelsWithRole(usedGpibChannels, RfsgMasquerade)
      && Keys(rs232Tasks) == Values(usedRS232Channels)
      && madeConnections == Reconciled(made0, serverSettings.connections)
    }

    /** The generation steps after the null checks, on the registries a cleanup left. */
    method GenerateTasksAndRoutes(consumed: set<int>) returns (ok: bool)
      requires Valid() && tasksAllocated
      requires variableTimebaseClockTask.None? && daqMxTasks == [] && gpibTasks == [] && rs232Tasks == [] && rfsgTasks == []
      modifies this`variableTimebaseClockTask, this`daqMxTasks, this`gpibTasks, this`rs232Tasks, this`rfsgTasks,
               this`usedDigitalChannels, this`madeConnections, this`misconfiguredGpibIds, driver
      ensures Valid()
      ensures IsPrefix(old(driver.log), driver.log)
      ensures GenerationRan(old(Inputs()), consumed, NewEvents(old(driver.log)), ok, variableTimebaseClockTask, daqMxTasks,
                            gpibTasks, rfsgTasks, rs232Tasks, old(misconfiguredGpibIds), misconfiguredGpibIds)
      ensures !Configured(serverSettings.variableTimebaseOutputChannel) ==> variableTimebaseClockTask.None?
      ensures TimebaseRefused(serverSettings.variableTimebaseOutputChannel, old(usedDigitalChannels)) ==> !ok
      ensures old(usedDaqMxDevices).None? ==> !ok
      ensures ok ==> BuffersGenerated(old(madeConnections))
    {
      ghost var l0, g, mis0 := driver.log, Inputs(), misconfiguredGpibIds;
      ok := GenerateDeviceTasks(consumed);
      assert old(Inputs()) == g;
      if !ok {
        GenerationDeviceStopped(g, consumed, NewEvents(l0), variableTimebaseClockTask, daqMxTasks, driver.nextId,
                                usedDigitalChannels, mis0);
        return;
      }
      ghost var l1, g2, vt, daq, nD, dig := driver.log, Inputs(), variableTimebaseClockTask, daqMxTasks, driver.nextId,
                                             usedDigitalChannels;
      ghost var devices, analog := usedDaqMxDevices, usedAnalogChannels;
      assert devices.Some? && Keys(daq) == DaqTaskDevices(devices.value, serverSettings.devicesSettings, dig, analog);
      assert vt.Some? <==> Configured(serverSettings.variableTimebaseOutputChannel);
      ok := GenerateChannelTasksAndRoutes();
      assert variableTimebaseClockTask == vt && daqMxTasks == daq && usedDigitalChannels == dig;
      assert usedDaqMxDevices == devices && usedAnalogChannels == analog;
      GenerationBothLogged(g, g2, consumed, l0, l1, driver.log, vt, daq, nD, dig, ok, gpibTasks, rfsgTasks,
                           rs232Tasks, mis0, misconfiguredGpibIds, driver.nextId);
    }

    /** The timebase task, then the DAQ task of every used device. The run is that of
        `DeviceStages` on the inputs, the timebase and DAQ registries are what it noted, and
        it gets through exactly when the inputs pass its checks and no driver call throws. */
    method GenerateDeviceTasks(consumed: set<int>) returns (ok: bool)
      requires Valid() && tasksAllocated && variableTimebaseClockTask.None? && daqMxTasks == []
      modifies this`variableTimebaseClockTask, this`daqMxTasks, this`usedDigitalChannels, driver
      ensures Valid()
      ensures IsPrefix(old(driver.log), driver.log)
      ensures DeviceTasksRan(old(Inputs()), consumed, NewEvents(old(driver.log)), ok, variableTimebaseClockTask, daqMxTasks,
                             driver.nextId, usedDigitalChannels)
      ensures !Configured(serverSettings.variableTimebaseOutputChannel) ==> variableTimebaseClockTask.None?
      ensures TimebaseRefused(serverSettings.variableTimebaseOutputChannel, old(usedDigitalChannels)) ==> !ok
      ensures old(usedDaqMxDevices).None? ==> !ok
      ensures ok ==> DeviceTasksGenerated()
    {
      ghost var l0, g, daq0 := driver.log, Inputs(), daqMxTasks;
      ghost var vt0, gpib0, rs2320, rfsg0 := variableTimebaseClockTask, gpibTasks, rs232Tasks, rfsgTasks;
      assert RegistriesValid(true, vt0, daq0, gpib0, rs2320, rfsg0, driver.nextId);
      ok := GenerateTimebaseTask(consumed);
      assert old(Inputs()) == g;
      assert daqMxTasks == daq0 && gpibTasks == gpib0 && rs232Tasks == rs2320 && rfsgTasks == rfsg0;
      RegistriesValidOtherTimebase(vt0, variableTimebaseClockTask, daq0, gpib0, rs2320, rfsg0, old(driver.nextId),
                                   driver.nextId);
      if !ok || usedDaqMxDevices.None? {
        DeviceTasksRun(g, consumed, NewEvents(l0), ok, variableTimebaseClockTask, driver.nextId, usedDigitalChannels, [],
                       false, daq0, daqMxTasks, driver.nextId);
        assert NewEvents(l0) == NewEvents(l0) + [];
        return false;
      }
      ok := GenerateUsedDeviceTasks(g, consumed, l0);
    }

    /** The DAQ half of `GenerateDeviceTasks`, once the timebase step on the inputs `g` got
        through and there is a device list: the DAQ loop over that list, after which the
        device part has run on `g` as its two steps promise. */
    method GenerateUsedDeviceTasks(ghost g: GenerationInputs, consumed: set<int>, ghost l0: seq<DriverEvent>)
      returns (ok: bool)
      requires Valid() && tasksAllocated && usedDaqMxDevices.Some? && daqMxTasks == [] && IsPrefix(l0, driver.log)
      requires g.devices == usedDaqMxDevices && g.devs == serverSettings.devicesSettings && g.analog == usedAnalogChannels
      requires TimebaseRan(g, consumed, NewEvents(l0), true, variableTimebaseClockTask, driver.nextId, usedDigitalChannels)
      requires variableTimebaseClockTask.Some? <==> Configured(serverSettings.variableTimebaseOutputChannel)
      modifies this`daqMxTasks, driver
      ensures Valid() && IsPrefix(l0, driver.log)
      ensures DeviceTasksRan(g, consumed, NewEvents(l0), ok, variableTimebaseClockTask, daqMxTasks, driver.nextId,
                             usedDigitalChannels)
      ensures ok ==> DeviceTasksGenerated()
    {
      ghost var l1, vt1, n1, dig1 := driver.log, variableTimebaseClockTask, driver.nextId, usedDigitalChannels;
      assert Keys(daqMxTasks) == [];
      ok := GenerateDaqMxTasks(usedDaqMxDevices.value);
      assert Valid();
      SplitLog(l0, l1, driver.log);
      assert NewEvents(l0) == l1[|l0|..] + driver.log[|l1|..];
      DeviceTasksRun(g, consumed, l1[|l0|..], true, vt1, n1, dig1, driver.log[|l1|..], ok, [], daqMxTasks, driver.nextId);
    }

    /** The GPIB and RFSG tasks, the RS232 tasks, then the terminal routes. */
    method GenerateChannelTasksAndRoutes() returns (ok: bool)
      requires Valid() && tasksAllocated && gpibTasks == [] && rs232Tasks == [] && rfsgTasks == []
      modifies this`gpibTasks, this`rs232Tasks, this`rfsgTasks, this`madeConnections, this`misconfiguredGpibIds, driver
      ensures Valid()
      ensures IsPrefix(old(driver.log), driver.log)
      ensures ChannelTasksRan(old(Inputs()), old(driver.nextId), NewEvents(old(driver.log)), ok, gpibTasks, rfsgTasks,
                              rs232Tasks, old(misconfiguredGpibIds), misconfiguredGpibIds, driver.nextId)
      ensures ok ==> ChannelTasksGenerated(old(madeConnections))
    {
      ghost var l0, g, mis0 := driver.log, Inputs(), misconfiguredGpibIds;
      ok := GenerateGpibTasks();
      assert old(Inputs()) == g;
      if !ok {
        ChannelGpibStopped(g, old(driver.nextId), NewEvents(l0), driver.nextId, gpibTasks, rfsgTasks, mis0,
                           misconfiguredGpibIds);
        return;
      }
      assert Keys(gpibTasks) == ChannelsWithRole(usedGpibChannels, PlainGpib);
      assert Keys(rfsgTasks) == ChannelsWithRole(usedGpibChannels, RfsgMasquerade);
      ok := GenerateSerialTasksAndRoutes(g, old(driver.nextId), l0, mis0);
    }

    /** The second half of `GenerateChannelTasksAndRoutes`, once the GPIB loop on the inputs
        `g` got through: the RS232 tasks, then the terminal routes, after which the channel
        part has run on `g` as its three steps promise. */
    method GenerateSerialTasksAndRoutes(ghost g: GenerationInputs, ghost n0: nat, ghost l0: seq<DriverEvent>,
                                        ghost mis0: seq<int>) returns (ok: bool)
      requires Valid() && tasksAllocated && rs232Tasks == [] && IsPrefix(l0, driver.log)
      requires g.gpib == usedGpibChannels && g.rs232 == usedRS232Channels && g.devs == serverSettings.devicesSettings
      requires g.made == madeConnections && g.connections == serverSettings.connections
      requires GpibLoopRan(g.gpib, n0, g.devs, [], [], mis0, NewEvents(l0), true, gpibTasks, rfsgTasks,
                           misconfiguredGpibIds, driver.nextId)
      requires Keys(gpibTasks) == ChannelsWithRole(usedGpibChannels, PlainGpib)
      requires Keys(rfsgTasks) == ChannelsWithRole(usedGpibChannels, RfsgMasquerade)
      modifies this`rs232Tasks, this`madeConnections, driver
      ensures Valid() && IsPrefix(l0, driver.log)
      ensures ChannelTasksRan(g, n0, NewEvents(l0), ok, gpibTasks, rfsgTasks, rs232Tasks, mis0, misconfiguredGpibIds,
                              driver.nextId)
      ensures ok ==> ChannelTasksGenerated(g.made)
    {
      ghost var l1, nG := driver.log, driver.nextId;
      ok := GenerateRS232Tasks();
      assert Valid();
      if !ok {
        SplitLog(l0, l1, driver.log);
        ChannelRs232Stopped(g, n0, l1[|l0|..], nG, gpibTasks, rfsgTasks, mis0, misconfiguredGpibIds, driver.log[|l1|..],
                            rs232Tasks, driver.nextId);
        return;
      }
      ok := MakeRoutesAfterChannelTasks(g, n0, l0, mis0, l1, nG);
    }

    /** The terminal routes, once both channel loops on the inputs `g` got through; the
        channel part has then run on `g` as its three steps promise. */
    method MakeRoutesAfterChannelTasks(ghost g: GenerationInputs, ghost n0: nat, ghost l0: seq<DriverEvent>,
                                       ghost mis0: seq<int>, ghost l1: seq<DriverEvent>, ghost nG: nat)
      returns (ok: bool)
      requires IsPrefix(l0, l1) && IsPrefix(l1, driver.log)
      requires g.made == madeConnections && g.connections == serverSettings.connections
      requires GpibLoopRan(g.gpib, n0, g.devs, [], [], mis0, l1[|l0|..], true, gpibTasks, rfsgTasks,
                           misconfiguredGpibIds, nG)
      requires Rs232LoopRan(g.rs232, nG, g.devs, [], NewEvents(l1), true, rs232Tasks, driver.nextId)
      requires Valid() && Keys(gpibTasks) == ChannelsWithRole(usedGpibChannels, PlainGpib)
      requires Keys(rfsgTasks) == ChannelsWithRole(usedGpibChannels, RfsgMasquerade)
      requires Keys(rs232Tasks) == Values(usedRS232Channels)
      modifies this`madeConnections, driver
      ensures Valid() && IsPrefix(l0, driver.log) && driver.nextId == old(driver.nextId)
      ensures ChannelTasksRan(g, n0, NewEvents(l0), ok, gpibTasks, rfsgTasks, rs232Tasks, mis0, misconfiguredGpibIds,
                              driver.nextId)
      ensures ok ==> ChannelTasksGenerated(g.made)
    {
      ghost var l2 := driver.log;
      ghost var live, vt, daq, gpib, rs232, rfsg, n := tasksAllocated, variableTimebaseClockTask, daqMxTasks, gpibTasks,
                                                       rs232Tasks, rfsgTasks, driver.nextId;
      assert RegistriesValid(live, vt, daq, gpib, rs232, rfsg, n);
      ok := MakeRoutesForGeneration();
      assert tasksAllocated == live && variableTimebaseClockTask == vt && daqMxTasks == daq && gpibTasks == gpib
             && rs232Tasks == rs232 && rfsgTasks == rfsg && driver.nextId == n;
      ChannelRoutesLogged(g, n0, l0, l1, l2, driver.log, nG, gpibTasks, rfsgTasks, mis0, misconfiguredGpibIds,
                          rs232Tasks, driver.nextId, ok);
    }

    /** `MakeTerminalConnections` with only what generation needs of it: the log of the
        reconciliation and, when it got through, the reconciled connection list. */
    method MakeRoutesForGeneration() returns (ok: bool)
      modifies this`madeConnections, driver
      ensures IsPrefix(old(driver.log), driver.log) && driver.nextId == old(driver.nextId)
      ensures ok ==> madeConnections == Reconciled(old(madeConnections), serverSettings.connections)
      ensures ok ==> Completed(NewEvents(old(driver.log)), ReconcileActions(old(madeConnections), serverSettings.connections))
      ensures !ok ==> StoppedAtFailure(NewEvents(old(driver.log)),
                                       ReconcileActions(old(madeConnections), serverSettings.connections))
    {
      ghost var inRemoval, stoppedAt;
      ok, inRemoval, stoppedAt := MakeTerminalConnections();
    }

    /** `armTasks`: clears the triggering task and the handler's state, then walks the device
        settings and starts the DAQ task of every device that is hardware triggered or
        software triggered from an external clock. On the synchronising device the
        sample-clock method subscribes the handler before the start, and the polling method
        reads the buffer position after it (`initialPosition`, `None` when the read throws)
        and starts the poll from it. The variable timebase task is then committed. A throw
        gives false, and so does a still-null DAQ registry once there is a device to look
        up. After a failure in the loop, `stoppedAt` is the device it stopped at and
        `readFailed` whether the position read threw; `stoppedAt` is the number of devices
        when the commit threw. */
    method ArmTasks(initialPosition: Option<int>) returns (ok: bool, armed: nat, ghost stoppedAt: nat, ghost readFailed: bool)
      requires Valid()
      modifies this`softwareTriggeringTask, this`softwareTimedTasksTriggered, this`softwareTimedTriggerCount,
               this`pollingPending, this`pollingInitialPosition, driver
      ensures Valid()
      ensures IsPrefix(old(driver.log), driver.log) && driver.nextId == old(driver.nextId)
      ensures !softwareTimedTasksTriggered && softwareTimedTriggerCount == 0
      ensures !tasksAllocated ==>
        && (ok <==> serverSettings.devicesSettings == []) && driver.log == old(driver.log)
        && softwareTriggeringTask.None? && pollingPending == old(pollingPending)
        && pollingInitialPosition == old(pollingInitialPosition)
      ensures var devs, sync, how := serverSettings.devicesSettings, serverSettings.deviceToSyncSoftwareTimedTasksTo,
                                     serverSettings.softwareTaskTriggerMethod;
        && (ok ==> Completed(NewEvents(old(driver.log)), ArmPlan(devs, daqMxTasks, sync, how, variableTimebaseClockTask)))
        && (ok ==> armed == |ArmedTasks(devs, daqMxTasks)|)
        && (ok ==> softwareTriggeringTask == SyncTask(devs, daqMxTasks, sync))
        && (ok ==> PollingAt(how, softwareTriggeringTask, pollingPending, pollingInitialPosition, initialPosition,
                             old(pollingPending), old(pollingInitialPosition)))
        && (!ok && tasksAllocated && !readFailed ==>
              StoppedAtFailure(NewEvents(old(driver.log)), ArmPlan(devs, daqMxTasks, sync, how, variableTimebaseClockTask)))
        && (!ok && tasksAllocated && stoppedAt < |devs| ==>
              && ArmStoppedAt(devs, daqMxTasks, sync, how, stoppedAt, NewEvents(old(driver.log)), readFailed,
                              softwareTriggeringTask)
              && PollingAt(how, SyncTask(devs[..stoppedAt], daqMxTasks, sync), pollingPending, pollingInitialPosition,
                           initialPosition, old(pollingPending), old(pollingInitialPosition)))
        && (!ok && tasksAllocated && stoppedAt >= |devs| ==>
              && stoppedAt == |devs| && !readFailed && variableTimebaseClockTask.Some?
              && |NewEvents(old(driver.log))| == |ArmPlan(devs, daqMxTasks, sync, how, variableTimebaseClockTask)|
              && softwareTriggeringTask == SyncTask(devs, daqMxTasks, sync)
              && PollingAt(how, softwareTriggeringTask, pollingPending, pollingInitialPosition, initialPosition,
                           old(pollingPending), old(pollingInitialPosition)))
    {
      softwareTriggeringTask := None;
      softwareTimedTasksTriggered := false;
      softwareTimedTriggerCount := 0;
      armed, stoppedAt, readFailed := 0, 0, false;
      if !tasksAllocated && serverSettings.devicesSettings != [] {
        return false, armed, stoppedAt, readFailed;
      }
      ok, armed, stoppedAt, readFailed := ArmAndCommit(initialPosition);
    }

    /** The device loop of `armTasks` and the commit after it, once the triggering task is
        cleared and the DAQ registry can be looked up. */
    method ArmAndCommit(initialPosition: Option<int>) returns (ok: bool, armed: nat, ghost stoppedAt: nat, ghost readFailed: bool)
      requires Valid() && softwareTriggeringTask.None? && (tasksAllocated || serverSettings.devicesSettings == [])
      modifies this`softwareTriggeringTask, this`pollingPending, this`pollingInitialPosition, driver
      ensures Valid()
      ensures IsPrefix(old(driver.log), driver.log) && driver.nextId == old(driver.nextId)
      ensures !tasksAllocated ==>
        && (ok <==> serverSettings.devicesSettings == []) && driver.log == old(driver.log)
        && softwareTriggeringTask.None? && pollingPending == old(pollingPending)
        && pollingInitialPosition == old(pollingInitialPosition)
      ensures var devs, sync, how := serverSettings.devicesSettings, serverSettings.deviceToSyncSoftwareTimedTasksTo,
                                     serverSettings.softwareTaskTriggerMethod;
        && (ok ==> Completed(NewEvents(old(driver.log)), ArmPlan(devs, daqMxTasks, sync, how, variableTimebaseClockTask)))
        && (ok ==> armed == |ArmedTasks(devs, daqMxTasks)|)
        && (ok ==> softwareTriggeringTask == SyncTask(devs, daqMxTasks, sync))
        && (ok ==> PollingAt(how, softwareTriggeringTask, pollingPending, pollingInitialPosition, initialPosition,
                             old(pollingPending), old(pollingInitialPosition)))
        && (!ok && tasksAllocated && !readFailed ==>
              StoppedAtFailure(NewEvents(old(driver.log)), ArmPlan(devs, daqMxTasks, sync, how, variableTimebaseClockTask)))
        && (!ok && tasksAllocated && stoppedAt < |devs| ==>
              && ArmStoppedAt(devs, daqMxTasks, sync, how, stoppedAt, NewEvents(old(driver.log)), readFailed,
                              softwareTriggeringTask)
              && PollingAt(how, SyncTask(devs[..stoppedAt], daqMxTasks, sync), pollingPending, pollingInitialPosition,
                           initialPosition, old(pollingPending), old(pollingInitialPosition)))
        && (!ok && tasksAllocated && stoppedAt >= |devs| ==>
              && stoppedAt == |devs| && !readFailed && variableTimebaseClockTask.Some?
              && |NewEvents(old(driver.log))| == |ArmPlan(devs, daqMxTasks, sync, how, variableTimebaseClockTask)|
              && softwareTriggeringTask == SyncTask(devs, daqMxTasks, sync)
              && PollingAt(how, softwareTriggeringTask, pollingPending, pollingInitialPosition, initialPosition,
                           old(pollingPending), old(pollingInitialPosition)))
    {
      ghost var l0 := driver.log;
      ok, armed, stoppedAt, readFailed := ArmDevices(initialPosition);
      if ok {
        ok := CommitTimebase(l0, armed);
        stoppedAt := |serverSettings.devicesSettings|;
      }
    }

    /** The end of `armTasks`: the variable timebase task, if any, is committed. */
    method CommitTimebase(ghost l0: seq<DriverEvent>, armed: nat) returns (ok: bool)
      requires IsPrefix(l0, driver.log)
      requires ArmLoopAt(serverSettings.devicesSettings, daqMxTasks, serverSettings.deviceToSyncSoftwareTimedTasksTo,
                         serverSettings.softwareTaskTriggerMethod, |serverSettings.devicesSettings|, driver.log[|l0|..],
                         armed, softwareTriggeringTask)
      modifies driver
      ensures IsPrefix(l0, driver.log) && driver.nextId == old(driver.nextId)
      ensures var devs, sync, how := serverSettings.devicesSettings, serverSettings.deviceToSyncSoftwareTimedTasksTo,
                                     serverSettings.softwareTaskTriggerMethod;
        && (ok ==> Completed(driver.log[|l0|..], ArmPlan(devs, daqMxTasks, sync, how, variableTimebaseClockTask)))
        && (ok ==> armed == |ArmedTasks(devs, daqMxTasks)|)
        && softwareTriggeringTask == SyncTask(devs, daqMxTasks, sync)
        && (!ok ==> StoppedAtFailure(driver.log[|l0|..], ArmPlan(devs, daqMxTasks, sync, how, variableTimebaseClockTask)))
        && (!ok ==> variableTimebaseClockTask.Some?
                    && |driver.log[|l0|..]| == |ArmPlan(devs, daqMxTasks, sync, how, variableTimebaseClockTask)|)
      ensures variableTimebaseClockTask.None? ==> ok && driver.log == old(driver.log)
    {
      var devs := serverSettings.devicesSettings;
      var sync := serverSettings.deviceToSyncSoftwareTimedTasksTo;
      var how := serverSettings.softwareTaskTriggerMethod;
      ghost var es := driver.log[|l0|..];
      if variableTimebaseClockTask.Some? {
        ok := driver.Perform(Commit(variableTimebaseClockTask.value));
        assert driver.log[|l0|..] == es + [DriverEvent(Commit(variableTimebaseClockTask.value), ok)];
        ArmLoopEnds(devs, daqMxTasks, sync, how, variableTimebaseClockTask, es, armed, softwareTriggeringTask, ok);
      } else {
        ok := true;
        ArmLoopEnds(devs, daqMxTasks, sync, how, variableTimebaseClockTask, es, armed, softwareTriggeringTask, true);
      }
    }

    /** Starts one armed DAQ task, subscribing the sample-clock handler to it first when `subscribe`. */
    method StartArmedTask(t: TaskHandle, subscribe: bool) returns (started: bool)
      modifies driver
      ensures driver.log == old(driver.log) + ArmEvents(t, subscribe, started) && driver.nextId == old(driver.nextId)
    {
      if subscribe {
        driver.Record(Subscribe(t));
      }
      started := driver.Perform(Start(t));
    }

    /** The polling branch on the synchronising device, once its task has started: the
        buffer position is read (`initialPosition`, `None` when the read throws) and, when
        the read returns, the poll is started from it. */
    method StartPolling(initialPosition: Option<int>) returns (read: bool)
      modifies this`pollingPending, this`pollingInitialPosition
      ensures read == initialPosition.Some?
      ensures read ==> pollingPending && Some(pollingInitialPosition) == initialPosition
      ensures !read ==> pollingPending == old(pollingPending) && pollingInitialPosition == old(pollingInitialPosition)
    {
      read := initialPosition.Some?;
      if read {
        pollingPending, pollingInitialPosition := true, initialPosition.value;
      }
    }

    /** One device of `armTasks`' loop: a device with a task that is armed has its task started
        (and becomes the triggering task when it is the synchronising device); any other is
        skipped. On a failure `readFailed` says whether the position read threw. */
    method ArmDevice(devs: seq<(string, DeviceSettings)>, daq: seq<(string, TaskHandle)>, sync: Option<string>,
                     how: SoftwareTaskTriggerType, ghost vt: Option<TaskHandle>, i: nat, ghost l0: seq<DriverEvent>,
                     armed: nat, trig: Option<TaskHandle>, initialPosition: Option<int>,
                     ghost pending0: bool, ghost position0: int)
      returns (ok: bool, armed': nat, trig': Option<TaskHandle>, ghost readFailed: bool)
      requires i < |devs| && IsPrefix(l0, driver.log) && ArmLoopAt(devs, daq, sync, how, i, driver.log[|l0|..], armed, trig)
      requires PollingAt(how, trig, pollingPending, pollingInitialPosition, initialPosition, pending0, position0)
      modifies this`pollingPending, this`pollingInitialPosition, driver
      ensures IsPrefix(l0, driver.log) && driver.nextId == old(driver.nextId)
      ensures ok ==> ArmLoopAt(devs, daq, sync, how, i + 1, driver.log[|l0|..], armed', trig')
      ensures ok ==> PollingAt(how, trig', pollingPending, pollingInitialPosition, initialPosition, pending0, position0)
      ensures ok ==> !readFailed
      ensures !ok ==> ArmStoppedAt(devs, daq, sync, how, i, driver.log[|l0|..], readFailed, trig')
      ensures !ok && !readFailed ==> StoppedAtFailure(driver.log[|l0|..], ArmPlan(devs, daq, sync, how, vt))
      ensures !ok ==> pollingPending == old(pollingPending) && pollingInitialPosition == old(pollingInitialPosition)
    {
      var entry := Lookup(daq, devs[i].0);
      if entry.Some? && ArmsDevice(devs[i].1) {
        ok, trig', readFailed := ArmTask(devs, daq, sync, how, vt, i, l0, armed, trig, entry.value, initialPosition,
                                         pending0, position0);
        armed' := if ok then armed + 1 else armed;
      } else {
        ArmLoopSkip(devs, daq, sync, how, i, driver.log[|l0|..], armed, trig);
        ok, armed', trig', readFailed := true, armed, trig, false;
      }
    }

    /** The task `t` of an armed device: the handler subscribed first and the task set as
        triggering task on the synchronising device under the sample-clock method, then the
        start, then under the polling method the triggering task set and the position read. */
    method ArmTask(devs: seq<(string, DeviceSettings)>, daq: seq<(string, TaskHandle)>, sync: Option<string>,
                   how: SoftwareTaskTriggerType, ghost vt: Option<TaskHandle>, i: nat, ghost l0: seq<DriverEvent>,
                   armed: nat, trig: Option<TaskHandle>, t: TaskHandle, initialPosition: Option<int>,
                   ghost pending0: bool, ghost position0: int)
      returns (ok: bool, trig': Option<TaskHandle>, ghost readFailed: bool)
      requires i < |devs| && IsPrefix(l0, driver.log) && ArmLoopAt(devs, daq, sync, how, i, driver.log[|l0|..], armed, trig)
      requires Lookup(daq, devs[i].0) == Some(t) && ArmsDevice(devs[i].1)
      requires PollingAt(how, trig, pollingPending, pollingInitialPosition, initialPosition, pending0, position0)
      modifies this`pollingPending, this`pollingInitialPosition, driver
      ensures IsPrefix(l0, driver.log) && driver.nextId == old(driver.nextId)
      ensures ok ==> ArmLoopAt(devs, daq, sync, how, i + 1, driver.log[|l0|..], armed + 1, trig')
      ensures ok ==> PollingAt(how, trig', pollingPending, pollingInitialPosition, initialPosition, pending0, position0)
      ensures ok ==> !readFailed
      ensures !ok ==> ArmStoppedAt(devs, daq, sync, how, i, driver.log[|l0|..], readFailed, trig')
      ensures !ok && !readFailed ==> StoppedAtFailure(driver.log[|l0|..], ArmPlan(devs, daq, sync, how, vt))
      ensures !ok ==> pollingPending == old(pollingPending) && pollingInitialPosition == old(pollingInitialPosition)
    {
      var dev := devs[i].0;
      ghost var before := driver.log[|l0|..];
      trig', readFailed := trig, false;
      var subscribe := sync == Some(dev) && how == SampleClockEvent;
      if subscribe {
        trig' := Some(t);
      }
      ghost var mid := driver.log;
      ok := StartArmedTask(t, subscribe);
      assert driver.log[|mid|..] == ArmEvents(t, subscribe, ok);
      SplitLog(l0, mid, driver.log);
      ArmLoopStep(devs, daq, sync, how, vt, i, before, armed, trig, t, subscribe, ok);
      if !ok {
        ArmStoppedAtStart(devs, daq, sync, how, vt, i, before, armed, trig, t, subscribe);
      } else if sync == Some(dev) && how == PollBufferPosition {
        trig' := Some(t);
        ok := StartPolling(initialPosition);
        readFailed := !ok;
        if !ok {
          ArmStoppedAtRead(devs, daq, sync, how, vt, i, before, armed, trig, t);
        }
      }
    }

    /** The device loop of `armTasks`, on the triggering task and polling state it starts from. */
    method ArmDevices(initialPosition: Option<int>) returns (ok: bool, armed: nat, ghost stoppedAt: nat, ghost readFailed: bool)
      requires softwareTriggeringTask.None?
      modifies this`softwareTriggeringTask, this`pollingPending, this`pollingInitialPosition, driver
      ensures IsPrefix(old(driver.log), driver.log) && driver.nextId == old(driver.nextId)
      ensures var devs, sync, how := serverSettings.devicesSettings, serverSettings.deviceToSyncSoftwareTimedTasksTo,
                                     serverSettings.softwareTaskTriggerMethod;
        && (ok ==> ArmLoopAt(devs, daqMxTasks, sync, how, |devs|, NewEvents(old(driver.log)), armed, softwareTriggeringTask))
        && (ok ==> PollingAt(how, softwareTriggeringTask, pollingPending, pollingInitialPosition, initialPosition,
                             old(pollingPending), old(pollingInitialPosition)))
        && (ok ==> !readFailed)
        && (!ok ==> ArmStoppedAt(devs, daqMxTasks, sync, how, stoppedAt, NewEvents(old(driver.log)), readFailed,
                                 softwareTriggeringTask))
        && (!ok ==> PollingAt(how, SyncTask(devs[..stoppedAt], daqMxTasks, sync), pollingPending, pollingInitialPosition,
                              initialPosition, old(pollingPending), old(pollingInitialPosition)))
        && (!ok && !readFailed ==>
              StoppedAtFailure(NewEvents(old(driver.log)), ArmPlan(devs, daqMxTasks, sync, how, variableTimebaseClockTask)))
      ensures serverSettings.devicesSettings == [] ==>
        && ok && driver.log == old(driver.log) && softwareTriggeringTask.None?
        && pollingPending == old(pollingPending) && pollingInitialPosition == old(pollingInitialPosition)
    {
      var devs := serverSettings.devicesSettings;
      var sync := serverSettings.deviceToSyncSoftwareTimedTasksTo;
      var how := serverSettings.softwareTaskTriggerMethod;
      var daq := daqMxTasks;
      ghost var vt := variableTimebaseClockTask;
      ghost var l0 := driver.log;
      ghost var pending0, position0 := pollingPending, pollingInitialPosition;
      ArmLoopEnds(devs, daq, sync, how, vt, [], 0, None, true);
      var trig: Option<TaskHandle> := None;
      armed, readFailed := 0, false;
      ok := true;
      var i := 0;
      while i < |devs| && ok
        invariant 0 <= i <= |devs|
        invariant IsPrefix(l0, driver.log) && driver.nextId == old(driver.nextId)
        invariant ok ==> ArmLoopAt(devs, daq, sync, how, i, driver.log[|l0|..], armed, trig) && !readFailed
        invariant ok ==> PollingAt(how, trig, pollingPending, pollingInitialPosition, initialPosition, pending0, position0)
        invariant !ok ==> ArmStoppedAt(devs, daq, sync, how, i, driver.log[|l0|..], readFailed, trig)
        invariant !ok ==> PollingAt(how, SyncTask(devs[..i], daq, sync), pollingPending, pollingInitialPosition,
                                    initialPosition, pending0, position0)
        invariant !ok && !readFailed ==> StoppedAtFailure(driver.log[|l0|..], ArmPlan(devs, daq, sync, how, vt))
        modifies this`pollingPending, this`pollingInitialPosition, driver
        decreases |devs| - i, ok
      {
        ok, armed, trig, readFailed := ArmDevice(devs, daq, sync, how, vt, i, l0, armed, trig, initialPosition,
                                                 pending0, position0);
        if ok {
          i := i + 1;
        }
      }
      softwareTriggeringTask := trig;
      stoppedAt := i;
      if devs == [] {
        assert devs[..i] == [] && |driver.log[|l0|..]| == 0;
      }
    }

    /** `triggerSoftwareTimedTasks`, the sample-clock handler of the triggering task. Its first
        call unsubscribes itself, marks the software timed tasks triggered and starts the
        GPIB, RS232 and RFSG tasks (a throwing start abandons the rest); every later call only
        counts, reporting every tenth count. With no triggering task the unsubscribe throws.
        The handler is subscribed by `armTasks` only to a task of the DAQ registry, so the
        registries are allocated whenever it runs. */
    method TriggerSoftwareTimedTasks() returns (ok: bool)
      requires tasksAllocated
      modifies this`softwareTimedTasksTriggered, this`softwareTimedTriggerCount, this`reportedDuplicateCounts, driver
      ensures IsPrefix(old(driver.log), driver.log) && driver.nextId == old(driver.nextId)
      ensures !old(softwareTimedTasksTriggered) && softwareTriggeringTask.None? ==>
        && !ok && driver.log == old(driver.log) && !softwareTimedTasksTriggered
        && softwareTimedTriggerCount == old(softwareTimedTriggerCount)
      ensures old(softwareTimedTasksTriggered) || softwareTriggeringTask.Some? ==>
        TriggerState(softwareTimedTasksTriggered, softwareTimedTriggerCount)
          == OnSampleClock(TriggerState(old(softwareTimedTasksTriggered), old(softwareTimedTriggerCount)))
      ensures !old(softwareTimedTasksTriggered) && softwareTriggeringTask.Some? ==>
        var plan := [Unsubscribe(softwareTriggeringTask.value)] + StartAll(SoftwareTimedTasks(gpibTasks, rs232Tasks, rfsgTasks));
        && (ok ==> Completed(NewEvents(old(driver.log)), plan))
        && (!ok ==> StoppedAtFailure(NewEvents(old(driver.log)), plan))
      ensures !old(softwareTimedTasksTriggered) ==> reportedDuplicateCounts == old(reportedDuplicateCounts)
      ensures old(softwareTimedTasksTriggered) ==>
        && ok && driver.log == old(driver.log)
        && reportedDuplicateCounts == old(reportedDuplicateCounts)
             + (if softwareTimedTriggerCount % 10 == 0 then [softwareTimedTriggerCount] else [])
    {
      if !softwareTimedTasksTriggered {
        if softwareTriggeringTask.None? {
          return false;
        }
        ghost var l0 := driver.log;
        var t := softwareTriggeringTask.value;
        driver.Record(Unsubscribe(t));
        softwareTimedTasksTriggered := true;
        ghost var mid := driver.log;
        var plan := StartAll(SoftwareTimedTasks(gpibTasks, rs232Tasks, rfsgTasks));
        ok := driver.PerformAll(plan);
        SplitLog(l0, mid, driver.log);
        assert mid[|l0|..] == [DriverEvent(Unsubscribe(t), true)];
        OneCallThen(Unsubscribe(t), true, driver.log[|mid|..], plan);
      } else {
        // A C# remainder is zero exactly when the Euclidean one is.
        softwareTimedTriggerCount := Wrap32(softwareTimedTriggerCount + 1);
        if softwareTimedTriggerCount % 10 == 0 {
          reportedDuplicateCounts := reportedDuplicateCounts + [softwareTimedTriggerCount];
        }
        ok := true;
      }
    }

    /** `softwareTaskTriggerPollingFunction`, over the buffer positions it reads (`None` is a
        read that throws): once a position differs from the one recorded when arming, it
        starts the GPIB, RS232 and RFSG tasks (a throwing start abandons the rest) and
        clears its thread reference. A read that throws ends it before any start, with the
        thread reference kept. With no triggering task the first read throws. `exit` is the
        pass that ended the loop. */
    method SoftwareTaskTriggerPolling(positions: seq<Option<int>>) returns (exit: Option<nat>, ok: bool)
      requires tasksAllocated
      modifies this`pollingPending, driver
      ensures IsPrefix(old(driver.log), driver.log) && driver.nextId == old(driver.nextId)
      ensures softwareTriggeringTask.None? ==>
        exit.None? && !ok && driver.log == old(driver.log) && pollingPending == old(pollingPending)
      ensures softwareTriggeringTask.Some? ==>
        (exit.None? <==> forall j :: 0 <= j < |positions| ==> positions[j] == Some(pollingInitialPosition))
      ensures exit.Some? ==>
        && exit.value < |positions| && positions[exit.value] != Some(pollingInitialPosition)
        && (forall j :: 0 <= j < exit.value ==> positions[j] == Some(pollingInitialPosition))
      ensures softwareTriggeringTask.Some? && exit.None? ==>
        ok && driver.log == old(driver.log) && pollingPending == old(pollingPending)
      ensures exit.Some? && positions[exit.value].None? ==>
        !ok && driver.log == old(driver.log) && pollingPending == old(pollingPending)
      ensures exit.Some? && positions[exit.value].Some? ==>
        var plan := StartAll(SoftwareTimedTasks(gpibTasks, rs232Tasks, rfsgTasks));
        && (ok ==> Completed(NewEvents(old(driver.log)), plan) && !pollingPending)
        && (!ok ==> StoppedAtFailure(NewEvents(old(driver.log)), plan) && pollingPending == old(pollingPending))
    {
      if softwareTriggeringTask.None? {
        return None, false;
      }
      exit := FirstPollExit(positions, pollingInitialPosition);
      if exit.None? {
        return exit, true;
      }
      if positions[exit.value].None? {
        return exit, false;
      }
      ok := driver.PerformAll(StartAll(SoftwareTimedTasks(gpibTasks, rs232Tasks, rfsgTasks)));
      if ok {
        pollingPending := false;
      }
    }

    /** The ready-input block of `generateTrigger` over the wait passes `samples`. `None`
        is a wait that has not ended. */
    method WaitForReady(samples: seq<ReadySample>) returns (proceed: Option<bool>)
      modifies this`readyReaderLoopRunning, this`readyReaderLoopAbort, driver
      ensures IsPrefix(old(driver.log), driver.log)
      ensures driver.nextId == old(driver.nextId) + (if |NewEvents(old(driver.log))| > 0 && NewEvents(old(driver.log))[0].ok then 1 else 0)
      ensures ReadyWaitDone(NewEvents(old(driver.log)), serverSettings, sequence, samples, old(driver.nextId), proceed,
                            old(readyReaderLoopRunning), old(readyReaderLoopAbort), readyReaderLoopRunning, readyReaderLoopAbort)
    {
      if !Configured(serverSettings.readyInput) || (sequence.Some? && !sequence.value.waitForReady) {
        return Some(true);
      }
      if sequence.None? {
        return Some(false);
      }
      ghost var l0 := driver.log;
      var reader := driver.CreateTask(ReadyReaderTask);
      assert driver.log[|l0|..] == [DriverEvent(Create(TaskHandle(ReadyReaderTask, old(driver.nextId))), reader.Some?)];
      if reader.None? {
        return Some(false);
      }
      var t := reader.value;
      readyReaderLoopAbort := false;
      readyReaderLoopRunning := true;
      var outcome, passes := WaitForReadyInput(samples, serverSettings.readyTimeout, serverSettings.readyTimeoutRunAnyway);
      if outcome == StillWaiting {
        return None;
      }
      if outcome == ReadFailed {
        return Some(false);
      }
      ghost var mid := driver.log;
      var goOn, disposed := EndReadyWait(t, outcome, samples[passes].abort);
      assert driver.log[|l0|..] == mid[|l0|..] + [DriverEvent(Dispose(t), disposed)];
      proceed := Some(goOn);
    }

    /** The end of a ready wait that did not throw: a timeout that aborts disposes the
        reader and clears the running flag once disposed; otherwise the running flag is
        cleared, the abort request seen by the last pass is kept, and the reader disposed. */
    method EndReadyWait(t: TaskHandle, outcome: WaitOutcome, abortSeen: bool) returns (proceed: bool, disposed: bool)
      requires outcome != StillWaiting && outcome != ReadFailed
      requires readyReaderLoopRunning
      modifies this`readyReaderLoopRunning, this`readyReaderLoopAbort, driver
      ensures driver.log == old(driver.log) + [DriverEvent(Dispose(t), disposed)] && driver.nextId == old(driver.nextId)
      ensures proceed == (RunsAfterWait(outcome) && disposed)
      ensures readyReaderLoopRunning == (outcome == TimedOutAbort && !disposed)
      ensures readyReaderLoopAbort == if outcome == TimedOutAbort then old(readyReaderLoopAbort) else abortSeen
    {
      if outcome == TimedOutAbort {
        disposed := driver.Perform(Dispose(t));
        if disposed {
          readyReaderLoopRunning := false;
        }
        return false, disposed;
      }
      readyReaderLoopRunning := false;
      readyReaderLoopAbort := abortSeen;
      disposed := driver.Perform(Dispose(t));
      proceed := outcome != Aborted && disposed;
    }

    /** The trigger output pulse and the starts of `generateTrigger`; the first throwing
        driver call abandons the rest. */
    method Fire() returns (ok: bool)
      modifies driver
      ensures IsPrefix(old(driver.log), driver.log) && driver.nextId == old(driver.nextId)
      ensures var plan := FireActions(serverSettings.triggerOutputChannel, serverSettings.devicesSettings, daqMxTasks,
                                      gpibTasks, rs232Tasks, rfsgTasks, softwareTriggeringTask, variableTimebaseClockTask);
        && (ok ==> Completed(NewEvents(old(driver.log)), plan))
        && (!ok ==> StoppedAtFailure(NewEvents(old(driver.log)), plan))
    {
      var starts := TriggerStarts(serverSettings.devicesSettings, daqMxTasks, gpibTasks, rs232Tasks, rfsgTasks,
                                  softwareTriggeringTask, variableTimebaseClockTask);
      if !Configured(serverSettings.triggerOutputChannel) {
        assert [] + starts == starts;
        ok := driver.PerformAll(starts);
        return;
      }
      ghost var l0 := driver.log;
      var pulse := PulseTrigger(serverSettings.triggerOutputChannel.value);
      var pulsed := driver.Perform(pulse);
      OneCallThen(pulse, pulsed, [], starts);
      if !pulsed {
        return false;
      }
      ghost var mid := driver.log;
      ok := driver.PerformAll(starts);
      SplitLog(l0, mid, driver.log);
      OneCallThen(pulse, pulsed, driver.log[|mid|..], starts);
    }

    /** `generateTrigger`, over the ready-input wait passes `samples`. Still-null registries
        throw before any driver call. Otherwise the ready wait runs (`w` is the log after it,
        `waited` its verdict); once it lets the run go on, the trigger pulse and the starts
        follow. `None` is a wait that has not ended. */
    method GenerateTrigger(samples: seq<ReadySample>) returns (r: Option<bool>, waited: Option<bool>, ghost w: seq<DriverEvent>)
      requires Valid()
      modifies this`readyReaderLoopRunning, this`readyReaderLoopAbort, driver
      ensures Valid()
      ensures IsPrefix(old(driver.log), w) && IsPrefix(w, driver.log)
      ensures !tasksAllocated ==>
        && r == Some(false) && driver.log == old(driver.log)
        && readyReaderLoopRunning == old(readyReaderLoopRunning) && readyReaderLoopAbort == old(readyReaderLoopAbort)
      ensures tasksAllocated ==>
        ReadyWaitDone(w[|old(driver.log)|..], serverSettings, sequence, samples, old(driver.nextId), waited,
                      old(readyReaderLoopRunning), old(readyReaderLoopAbort), readyReaderLoopRunning, readyReaderLoopAbort)
      ensures tasksAllocated && waited != Some(true) ==> r == waited && driver.log == w
      ensures tasksAllocated && waited == Some(true) ==>
        var plan := FireActions(serverSettings.triggerOutputChannel, serverSettings.devicesSettings, daqMxTasks,
                                gpibTasks, rs232Tasks, rfsgTasks, softwareTriggeringTask, variableTimebaseClockTask);
        && r.Some?
        && (r.value ==> Completed(driver.log[|w|..], plan))
        && (!r.value ==> StoppedAtFailure(driver.log[|w|..], plan))
    {
      w, waited := driver.log, None;
      if !tasksAllocated {
        return Some(false), waited, w;
      }
      ghost var n0 := driver.nextId;
      waited := WaitForReady(samples);
      w := driver.log;
      RegistriesValidLater(tasksAllocated, variableTimebaseClockTask, daqMxTasks, gpibTasks, rs232Tasks, rfsgTasks,
                           n0, driver.nextId);
      if waited != Some(true) {
        return waited, waited, w;
      }
      var fired := Fire();
      r := Some(fired);
    }

    /** `stop`: an abort request reaches a running ready wait, then the tasks are stopped
        and cleaned up; the cleanup's failures are only logged. */
    method Stop()
      requires Valid()
      modifies this`readyReaderLoopAbort, this`tasksAllocated, this`variableTimebaseClockTask, this`daqMxTasks,
               this`gpibTasks, this`rs232Tasks, this`rfsgTasks, this`taskErrorsDetected, driver
      ensures Valid()
      ensures readyReaderLoopAbort == (old(readyReaderLoopAbort) || readyReaderLoopRunning)
      ensures driver.nextId == old(driver.nextId) && IsPrefix(old(driver.log), driver.log)
      ensures exists cleaned: bool :: CleanedUp(NewEvents(old(driver.log)), old(variableTimebaseClockTask), old(daqMxTasks),
                                               old(gpibTasks), old(rs232Tasks), old(rfsgTasks), cleaned,
                                               old(taskErrorsDetected), taskErrorsDetected, (gpibTasks, rs232Tasks, rfsgTasks))
      ensures tasksAllocated && variableTimebaseClockTask.None? && daqMxTasks == []
    {
      if readyReaderLoopRunning {
        readyReaderLoopAbort := true;
      }
      ghost var l0 := driver.log;
      ghost var vt0, daq0, g0, r0, f0, e0 := variableTimebaseClockTask, daqMxTasks, gpibTasks, rs232Tasks, rfsgTasks,
                                             taskErrorsDetected;
      var cleaned := StopAndCleanupTasks();
      assert CleanedUp(driver.log[|l0|..], vt0, daq0, g0, r0, f0, cleaned, e0, taskErrorsDetected,
                       (gpibTasks, rs232Tasks, rfsgTasks));
    }

    /** `shutDown`: stops and cleans up the tasks, then resets every device `devices` lists
        (the driver's device list), which also forgets the made connections; a throwing
        reset abandons the rest. `cleaned` is the log once the cleanup is done. */
    method ShutDown(devices: seq<string>) returns (ok: bool, ghost cleaned: seq<DriverEvent>)
      requires Valid()
      modifies this`tasksAllocated, this`variableTimebaseClockTask, this`daqMxTasks, this`gpibTasks,
               this`rs232Tasks, this`rfsgTasks, this`taskErrorsDetected, this`madeConnections, driver
      ensures Valid()
      ensures tasksAllocated && variableTimebaseClockTask.None? && daqMxTasks == []
      ensures driver.nextId == old(driver.nextId)
      ensures IsPrefix(old(driver.log), cleaned) && IsPrefix(cleaned, driver.log)
      ensures exists c: bool :: CleanedUp(cleaned[|old(driver.log)|..], old(variableTimebaseClockTask), old(daqMxTasks),
                                         old(gpibTasks), old(rs232Tasks), old(rfsgTasks), c,
                                         old(taskErrorsDetected), taskErrorsDetected, (gpibTasks, rs232Tasks, rfsgTasks))
      ensures ok ==> madeConnections == [] && Completed(driver.log[|cleaned|..], ResetAll(devices))
      ensures !ok ==> madeConnections == old(madeConnections) && StoppedAtFailure(driver.log[|cleaned|..], ResetAll(devices))
    {
      var c := StopAndCleanupTasks();
      cleaned := driver.log;
      ok := ResetAllDevices(devices);
      assert CleanedUp(cleaned[|old(driver.log)|..], old(variableTimebaseClockTask), old(daqMxTasks),
                       old(gpibTasks), old(rs232Tasks), old(rfsgTasks), c,
                       old(taskErrorsDetected), taskErrorsDetected, (gpibTasks, rs232Tasks, rfsgTasks));
    }
  }
}
