/** Which DAQ tasks `armTasks` starts and which `generateTrigger` starts, the ready-input
    wait, the buffer-position poll and the first-sample-clock handler, stated as values. */
module TriggerPlan {
  import opened Common
  import opened Hardware
  import opened Drivers
  import opened CleanupPlan

  /** Started when arming: hardware triggered, or software triggered from an external clock. */
  predicate ArmsDevice(ds: DeviceSettings) {
    || ds.startTriggerType == TriggerIn
    || (ds.startTriggerType == SoftwareTrigger && ds.sampleClockSource == ExternalClock)
  }

  /** Started when triggering: software triggered from the internal clock. */
  predicate SoftTriggersDevice(ds: DeviceSettings) {
    ds.startTriggerType == SoftwareTrigger && ds.sampleClockSource != ExternalClock
  }

  /** The DAQ tasks that arming starts, in the order of the device settings. */
  function ArmedTasks(devs: seq<(string, DeviceSettings)>, daq: seq<(string, TaskHandle)>): seq<TaskHandle>
    decreases |devs|
  {
    if devs == [] then []
    else
      var init := ArmedTasks(devs[..|devs| - 1], daq);
      var (dev, ds) := devs[|devs| - 1];
      if Lookup(daq, dev).Some? && ArmsDevice(ds) then init + [Lookup(daq, dev).value] else init
  }

  /** The DAQ tasks that triggering starts, either before (`last == false`) or after the
      software timed tasks, in the order of the device settings. */
  function SoftTasks(devs: seq<(string, DeviceSettings)>, daq: seq<(string, TaskHandle)>, last: bool): seq<TaskHandle>
    decreases |devs|
  {
    if devs == [] then []
    else
      var init := SoftTasks(devs[..|devs| - 1], daq, last);
      var (dev, ds) := devs[|devs| - 1];
      if SoftTriggersDevice(ds) && ds.softTriggerLast == last && Lookup(daq, dev).Some?
      then init + [Lookup(daq, dev).value] else init
  }

  /** The device to which the software timed tasks are synchronised, when it is armed. */
  function SyncTask(devs: seq<(string, DeviceSettings)>, daq: seq<(string, TaskHandle)>, sync: Option<string>)
    : Option<TaskHandle>
    decreases |devs|
  {
    if devs == [] then None
    else
      var (dev, ds) := devs[|devs| - 1];
      if Lookup(daq, dev).Some? && ArmsDevice(ds) && sync == Some(dev) then Some(Lookup(daq, dev).value)
      else SyncTask(devs[..|devs| - 1], daq, sync)
  }

  /** Driver calls of the arming loop: on the synchronising device with the sample-clock
      method the handler is subscribed before the task is started. */
  function ArmActions(devs: seq<(string, DeviceSettings)>, daq: seq<(string, TaskHandle)>,
                      sync: Option<string>, how: SoftwareTaskTriggerType): seq<DriverAction>
    decreases |devs|
  {
    if devs == [] then []
    else
      var init := ArmActions(devs[..|devs| - 1], daq, sync, how);
      var (dev, ds) := devs[|devs| - 1];
      if Lookup(daq, dev).Some? && ArmsDevice(ds) then
        var t := Lookup(daq, dev).value;
        init + (if sync == Some(dev) && how == SampleClockEvent then [Subscribe(t)] else []) + [Start(t)]
      else init
  }

  /** The whole of `armTasks`: the arming loop, then committing the variable timebase task. */
  function ArmPlan(devs: seq<(string, DeviceSettings)>, daq: seq<(string, TaskHandle)>,
                   sync: Option<string>, how: SoftwareTaskTriggerType, vt: Option<TaskHandle>): seq<DriverAction>
  {
    ArmActions(devs, daq, sync, how) + (if vt.Some? then [Commit(vt.value)] else [])
  }

  /** The tasks a sequence of actions starts, in order. */
  function StartedBy(acts: seq<DriverAction>): seq<TaskHandle>
    decreases |acts|
  {
    if acts == [] then []
    else
      var init := StartedBy(acts[..|acts| - 1]);
      if acts[|acts| - 1].Start? then init + [acts[|acts| - 1].task] else init
  }

  lemma {:induction false} StartedByAppend(a: seq<DriverAction>, b: seq<DriverAction>)
    ensures StartedBy(a + b) == StartedBy(a) + StartedBy(b)
    decreases |b|
  {
    if b == [] {
      assert a + b == a;
    } else {
      var b' := b[..|b| - 1];
      assert (a + b)[..|a + b| - 1] == a + b';
      StartedByAppend(a, b');
    }
  }

  /** The arming loop starts exactly the armed tasks, in order. */
  lemma {:induction false} ArmActionsStartArmedTasks(devs: seq<(string, DeviceSettings)>, daq: seq<(string, TaskHandle)>,
                                                    sync: Option<string>, how: SoftwareTaskTriggerType)
    ensures StartedBy(ArmActions(devs, daq, sync, how)) == ArmedTasks(devs, daq)
    decreases |devs|
  {
    if devs != [] {
      var init := devs[..|devs| - 1];
      ArmActionsStartArmedTasks(init, daq, sync, how);
      var (dev, ds) := devs[|devs| - 1];
      var pre := ArmActions(init, daq, sync, how);
      if Lookup(daq, dev).Some? && ArmsDevice(ds) {
        var t := Lookup(daq, dev).value;
        var sub: seq<DriverAction> := if sync == Some(dev) && how == SampleClockEvent then [Subscribe(t)] else [];
        StartedByAppend(pre + sub, [Start(t)]);
        StartedByAppend(pre, sub);
        assert StartedBy([Start(t)]) == [t] by { assert [Start(t)][..0] == []; }
        if sub != [] {
          assert StartedBy(sub) == [] by { assert sub[..0] == []; }
        }
      }
    }
  }

  /** The arming loop subscribes the handler only to the synchronising device's task, and
      only with the sample-clock method. */
  lemma {:induction false} ArmActionsSubscribeOnlySync(devs: seq<(string, DeviceSettings)>, daq: seq<(string, TaskHandle)>,
                                                      sync: Option<string>, how: SoftwareTaskTriggerType)
    ensures forall i :: 0 <= i < |ArmActions(devs, daq, sync, how)| && ArmActions(devs, daq, sync, how)[i].Subscribe? ==>
      how == SampleClockEvent && sync.Some? && Lookup(daq, sync.value) == Some(ArmActions(devs, daq, sync, how)[i].task)
    decreases |devs|
  {
    if devs != [] {
      var init := devs[..|devs| - 1];
      ArmActionsSubscribeOnlySync(init, daq, sync, how);
      var (dev, ds) := devs[|devs| - 1];
      var pre := ArmActions(init, daq, sync, how);
      if Lookup(daq, dev).Some? && ArmsDevice(ds) {
        var t := Lookup(daq, dev).value;
        var sub: seq<DriverAction> := if sync == Some(dev) && how == SampleClockEvent then [Subscribe(t)] else [];
        var acts := ArmActions(devs, daq, sync, how);
        assert acts == pre + sub + [Start(t)];
        forall i | 0 <= i < |acts| && acts[i].Subscribe?
          ensures how == SampleClockEvent && sync.Some? && Lookup(daq, sync.value) == Some(acts[i].task)
        {
          if i < |pre| {
            assert acts[i] == pre[i];
          }
        }
      }
    }
  }

  /** The arming loop walks the device settings in order: the actions for a prefix of them
      begin the actions for all of them. */
  lemma {:induction false} ArmActionsPrefix(devs: seq<(string, DeviceSettings)>, daq: seq<(string, TaskHandle)>,
                                           sync: Option<string>, how: SoftwareTaskTriggerType, i: nat)
    requires i <= |devs|
    ensures IsPrefix(ArmActions(devs[..i], daq, sync, how), ArmActions(devs, daq, sync, how))
    decreases |devs| - i
  {
    if i < |devs| {
      ArmActionsPrefix(devs, daq, sync, how, i + 1);
      var w := devs[..i + 1];
      assert w[..|w| - 1] == devs[..i];
      PrefixTransitive(ArmActions(devs[..i], daq, sync, how), ArmActions(w, daq, sync, how), ArmActions(devs, daq, sync, how));
    } else {
      assert devs[..i] == devs;
    }
  }

  /** The state of the arming loop after `devs[..i]`: the driver calls so far all succeeded
      and are those of `ArmActions`, `armed` counts the started tasks, and `trig` is the
      synchronising device's task if it has been armed. */
  predicate ArmLoopAt(devs: seq<(string, DeviceSettings)>, daq: seq<(string, TaskHandle)>, sync: Option<string>,
                      how: SoftwareTaskTriggerType, i: nat, es: seq<DriverEvent>, armed: nat, trig: Option<TaskHandle>)
  {
    && i <= |devs|
    && Completed(es, ArmActions(devs[..i], daq, sync, how))
    && armed == |ArmedTasks(devs[..i], daq)|
    && trig == SyncTask(devs[..i], daq, sync)
  }

  /** The events of arming one device's task: the handler subscribed first on the
      synchronising device with the sample-clock method, then the start. */
  function ArmEvents(t: TaskHandle, subscribe: bool, started: bool): seq<DriverEvent> {
    (if subscribe then [DriverEvent(Subscribe(t), true)] else []) + [DriverEvent(Start(t), started)]
  }

  /** The arming functions on `devs[..i + 1]`, in terms of those on `devs[..i]`. */
  lemma ArmUnfold(devs: seq<(string, DeviceSettings)>, daq: seq<(string, TaskHandle)>, sync: Option<string>,
                  how: SoftwareTaskTriggerType, i: nat)
    requires i < |devs|
    ensures var dev, ds := devs[i].0, devs[i].1;
      if Lookup(daq, dev).Some? && ArmsDevice(ds) then
        var t := Lookup(daq, dev).value;
        && ArmActions(devs[..i + 1], daq, sync, how)
           == ArmActions(devs[..i], daq, sync, how)
              + (if sync == Some(dev) && how == SampleClockEvent then [Subscribe(t)] else []) + [Start(t)]
        && ArmedTasks(devs[..i + 1], daq) == ArmedTasks(devs[..i], daq) + [t]
        && SyncTask(devs[..i + 1], daq, sync) == if sync == Some(dev) then Some(t) else SyncTask(devs[..i], daq, sync)
      else
        && ArmActions(devs[..i + 1], daq, sync, how) == ArmActions(devs[..i], daq, sync, how)
        && ArmedTasks(devs[..i + 1], daq) == ArmedTasks(devs[..i], daq)
        && SyncTask(devs[..i + 1], daq, sync) == SyncTask(devs[..i], daq, sync)
  {
    var w := devs[..i + 1];
    assert w[..|w| - 1] == devs[..i] && w[|w| - 1] == devs[i];
  }

  /** One device of the arming loop that is skipped: it has no task, or it is not armed. */
  lemma ArmLoopSkip(devs: seq<(string, DeviceSettings)>, daq: seq<(string, TaskHandle)>, sync: Option<string>,
                    how: SoftwareTaskTriggerType, i: nat, es: seq<DriverEvent>, armed: nat, trig: Option<TaskHandle>)
    requires i < |devs| && ArmLoopAt(devs, daq, sync, how, i, es, armed, trig)
    requires !(Lookup(daq, devs[i].0).Some? && ArmsDevice(devs[i].1))
    ensures ArmLoopAt(devs, daq, sync, how, i + 1, es, armed, trig)
  {
    ArmUnfold(devs, daq, sync, how, i);
  }

  /** One armed device of the arming loop: its task `t` is started (the handler subscribed
      first when `subscribe`), and a start that throws ends `armTasks`. */
  lemma ArmLoopStep(devs: seq<(string, DeviceSettings)>, daq: seq<(string, TaskHandle)>, sync: Option<string>,
                    how: SoftwareTaskTriggerType, vt: Option<TaskHandle>, i: nat, es: seq<DriverEvent>, armed: nat,
                    trig: Option<TaskHandle>, t: TaskHandle, subscribe: bool, started: bool)
    requires i < |devs| && ArmLoopAt(devs, daq, sync, how, i, es, armed, trig)
    requires Lookup(daq, devs[i].0) == Some(t) && ArmsDevice(devs[i].1)
    requires subscribe == (sync == Some(devs[i].0) && how == SampleClockEvent)
    ensures started ==>
      ArmLoopAt(devs, daq, sync, how, i + 1, es + ArmEvents(t, subscribe, started), armed + 1,
                if sync == Some(devs[i].0) then Some(t) else trig)
    ensures !started ==> StoppedAtFailure(es + ArmEvents(t, subscribe, started), ArmPlan(devs, daq, sync, how, vt))
    ensures !started ==>
      && |ArmActions(devs[..i], daq, sync, how)| < |es + ArmEvents(t, subscribe, started)|
      && StoppedAtFailure(es + ArmEvents(t, subscribe, started), ArmActions(devs[..i + 1], daq, sync, how))
      && (es + ArmEvents(t, subscribe, started))[|es + ArmEvents(t, subscribe, started)| - 1].action == Start(t)
  {
    ArmUnfold(devs, daq, sync, how, i);
    ArmEventsStep(es, ArmActions(devs[..i], daq, sync, how), t, subscribe, started);
    if !started {
      ArmActionsPrefix(devs, daq, sync, how, i + 1);
      var all := ArmActions(devs, daq, sync, how);
      assert ArmPlan(devs, daq, sync, how, vt)[..|all|] == all;
      PrefixTransitive(ArmActions(devs[..i + 1], daq, sync, how), all, ArmPlan(devs, daq, sync, how, vt));
      StoppedWithinLongerPlan(es + ArmEvents(t, subscribe, started), ArmActions(devs[..i + 1], daq, sync, how),
                              ArmPlan(devs, daq, sync, how, vt));
    }
  }

  /** Where a failed arming loop stopped: at device `k`, which is armed, either because its
      start threw (`readFailed` false: the start is the last call and stops the plan for
      `devs[..k + 1]`) or because, on the synchronising device under the polling method, the
      buffer-position read after a start that returned threw (the calls for `devs[..k + 1]`
      then all completed). `trig` is the triggering task left behind: the sample-clock
      method sets it before the start and the polling method before the read. */
  predicate ArmStoppedAt(devs: seq<(string, DeviceSettings)>, daq: seq<(string, TaskHandle)>, sync: Option<string>,
                         how: SoftwareTaskTriggerType, k: nat, es: seq<DriverEvent>, readFailed: bool,
                         trig: Option<TaskHandle>)
  {
    && k < |devs| && Lookup(daq, devs[k].0).Some? && ArmsDevice(devs[k].1)
    && |ArmActions(devs[..k], daq, sync, how)| < |es|
    && (readFailed ==>
          how == PollBufferPosition && sync == Some(devs[k].0) && Completed(es, ArmActions(devs[..k + 1], daq, sync, how)))
    && (!readFailed ==>
          && StoppedAtFailure(es, ArmActions(devs[..k + 1], daq, sync, how))
          && es[|es| - 1].action == Start(Lookup(daq, devs[k].0).value))
    && trig == if sync == Some(devs[k].0) && (how == SampleClockEvent || readFailed) then Lookup(daq, devs[k].0)
               else SyncTask(devs[..k], daq, sync)
  }

  /** A start that throws at armed device `i` stops the loop there, leaving the task set
      before the start under the sample-clock method. */
  lemma ArmStoppedAtStart(devs: seq<(string, DeviceSettings)>, daq: seq<(string, TaskHandle)>, sync: Option<string>,
                          how: SoftwareTaskTriggerType, vt: Option<TaskHandle>, i: nat, es: seq<DriverEvent>, armed: nat,
                          trig: Option<TaskHandle>, t: TaskHandle, subscribe: bool)
    requires i < |devs| && ArmLoopAt(devs, daq, sync, how, i, es, armed, trig)
    requires Lookup(daq, devs[i].0) == Some(t) && ArmsDevice(devs[i].1)
    requires subscribe == (sync == Some(devs[i].0) && how == SampleClockEvent)
    ensures ArmStoppedAt(devs, daq, sync, how, i, es + ArmEvents(t, subscribe, false), false,
                         if subscribe then Some(t) else trig)
  {
    ArmLoopStep(devs, daq, sync, how, vt, i, es, armed, trig, t, subscribe, false);
  }

  /** A position read that throws after the start at the synchronising device under the
      polling method stops the loop there, with that device's task as the triggering task. */
  lemma ArmStoppedAtRead(devs: seq<(string, DeviceSettings)>, daq: seq<(string, TaskHandle)>, sync: Option<string>,
                         how: SoftwareTaskTriggerType, vt: Option<TaskHandle>, i: nat, es: seq<DriverEvent>, armed: nat,
                         trig: Option<TaskHandle>, t: TaskHandle)
    requires i < |devs| && ArmLoopAt(devs, daq, sync, how, i, es, armed, trig)
    requires Lookup(daq, devs[i].0) == Some(t) && ArmsDevice(devs[i].1)
    requires sync == Some(devs[i].0) && how == PollBufferPosition
    ensures ArmStoppedAt(devs, daq, sync, how, i, es + ArmEvents(t, false, true), true, Some(t))
  {
    ArmLoopStep(devs, daq, sync, how, vt, i, es, armed, trig, t, false, true);
    ArmUnfold(devs, daq, sync, how, i);
  }

  /** Arming one task after a completed prefix completes, or stops at, the extended prefix. */
  lemma ArmEventsStep(es: seq<DriverEvent>, p: seq<DriverAction>, t: TaskHandle, subscribe: bool, started: bool)
    requires Completed(es, p)
    ensures started ==>
      Completed(es + ArmEvents(t, subscribe, started), p + (if subscribe then [Subscribe(t)] else []) + [Start(t)])
    ensures !started ==>
      StoppedAtFailure(es + ArmEvents(t, subscribe, started), p + (if subscribe then [Subscribe(t)] else []) + [Start(t)])
  {
    var sub: seq<DriverAction> := if subscribe then [Subscribe(t)] else [];
    var subEs: seq<DriverEvent> := if subscribe then [DriverEvent(Subscribe(t), true)] else [];
    var ev := [DriverEvent(Start(t), started)];
    assert ArmEvents(t, subscribe, started) == subEs + ev;
    assert Completed(subEs, sub);
    CompletedThenCompleted(es, subEs, p, sub);
    assert es + (subEs + ev) == (es + subEs) + ev;
    if started {
      CompletedThenCompleted(es + subEs, ev, p + sub, [Start(t)]);
    } else {
      CompletedThenStopped(es + subEs, ev, p + sub, [Start(t)]);
    }
  }

  /** The arming loop starts with nothing done, and its end is the whole loop; committing
      the timebase task then completes the plan or stops it at a failure. */
  lemma ArmLoopEnds(devs: seq<(string, DeviceSettings)>, daq: seq<(string, TaskHandle)>, sync: Option<string>,
                    how: SoftwareTaskTriggerType, vt: Option<TaskHandle>, es: seq<DriverEvent>, armed: nat,
                    trig: Option<TaskHandle>, committed: bool)
    ensures ArmLoopAt(devs, daq, sync, how, 0, [], 0, None)
    ensures ArmLoopAt(devs, daq, sync, how, |devs|, es, armed, trig) ==>
      && armed == |ArmedTasks(devs, daq)| && trig == SyncTask(devs, daq, sync)
      && (vt.None? ==> Completed(es, ArmPlan(devs, daq, sync, how, vt)))
      && (vt.Some? && committed ==> Completed(es + [DriverEvent(Commit(vt.value), committed)], ArmPlan(devs, daq, sync, how, vt)))
      && (vt.Some? && !committed ==>
            StoppedAtFailure(es + [DriverEvent(Commit(vt.value), committed)], ArmPlan(devs, daq, sync, how, vt)))
      && (vt.Some? ==> |es + [DriverEvent(Commit(vt.value), committed)]| == |ArmPlan(devs, daq, sync, how, vt)|)
  {
    assert devs[..0] == [];
    assert devs[..|devs|] == devs;
    var acts := ArmActions(devs, daq, sync, how);
    if ArmLoopAt(devs, daq, sync, how, |devs|, es, armed, trig) {
      if vt.None? {
        assert ArmPlan(devs, daq, sync, how, vt) == acts;
      } else if committed {
        CompletedThenCompleted(es, [DriverEvent(Commit(vt.value), committed)], acts, [Commit(vt.value)]);
      } else {
        CompletedThenStopped(es, [DriverEvent(Commit(vt.value), committed)], acts, [Commit(vt.value)]);
      }
    }
  }

  /** A task is armed iff some device with that task is hardware triggered or externally clocked. */
  lemma {:induction false} ArmedTasksMembers(devs: seq<(string, DeviceSettings)>, daq: seq<(string, TaskHandle)>)
    ensures forall t :: t in ArmedTasks(devs, daq) <==>
      exists i :: 0 <= i < |devs| && ArmsDevice(devs[i].1) && Lookup(daq, devs[i].0) == Some(t)
    decreases |devs|
  {
    if devs != [] {
      var init := devs[..|devs| - 1];
      ArmedTasksMembers(init, daq);
      forall t | exists i :: 0 <= i < |devs| && ArmsDevice(devs[i].1) && Lookup(daq, devs[i].0) == Some(t)
        ensures t in ArmedTasks(devs, daq)
      {
        var i :| 0 <= i < |devs| && ArmsDevice(devs[i].1) && Lookup(daq, devs[i].0) == Some(t);
        if i < |devs| - 1 {
          assert init[i] == devs[i];
        }
      }
      forall t | t in ArmedTasks(devs, daq)
        ensures exists i :: 0 <= i < |devs| && ArmsDevice(devs[i].1) && Lookup(daq, devs[i].0) == Some(t)
      {
        if t in ArmedTasks(init, daq) {
          var i :| 0 <= i < |init| && ArmsDevice(init[i].1) && Lookup(daq, init[i].0) == Some(t);
          assert devs[i] == init[i];
        } else {
          assert ArmsDevice(devs[|devs| - 1].1);
        }
      }
    }
  }

  /** A task is soft-triggered in a phase iff some device with that task is software
      triggered from the internal clock and belongs to that phase. */
  lemma {:induction false} SoftTasksMembers(devs: seq<(string, DeviceSettings)>, daq: seq<(string, TaskHandle)>, last: bool)
    ensures forall t :: t in SoftTasks(devs, daq, last) <==>
      exists i :: 0 <= i < |devs| && SoftTriggersDevice(devs[i].1) && devs[i].1.softTriggerLast == last
                  && Lookup(daq, devs[i].0) == Some(t)
    decreases |devs|
  {
    if devs != [] {
      var init := devs[..|devs| - 1];
      SoftTasksMembers(init, daq, last);
      forall t | exists i :: 0 <= i < |devs| && SoftTriggersDevice(devs[i].1) && devs[i].1.softTriggerLast == last
                             && Lookup(daq, devs[i].0) == Some(t)
        ensures t in SoftTasks(devs, daq, last)
      {
        var i :| 0 <= i < |devs| && SoftTriggersDevice(devs[i].1) && devs[i].1.softTriggerLast == last
                 && Lookup(daq, devs[i].0) == Some(t);
        if i < |devs| - 1 {
          assert init[i] == devs[i];
        }
      }
      forall t | t in SoftTasks(devs, daq, last)
        ensures exists i :: 0 <= i < |devs| && SoftTriggersDevice(devs[i].1) && devs[i].1.softTriggerLast == last
                            && Lookup(daq, devs[i].0) == Some(t)
      {
        if t in SoftTasks(init, daq, last) {
          var i :| 0 <= i < |init| && SoftTriggersDevice(init[i].1) && init[i].1.softTriggerLast == last
                   && Lookup(daq, init[i].0) == Some(t);
          assert devs[i] == init[i];
        }
      }
    }
  }

  /** Two keys whose lookups give the same task are the same key, when no task is registered twice. */
  lemma LookupInjective(daq: seq<(string, TaskHandle)>, a: string, b: string)
    requires NoDup(Values(daq))
    requires Lookup(daq, a).Some? && Lookup(daq, a) == Lookup(daq, b)
    ensures a == b
  {
    var t := Lookup(daq, a).value;
    var i :| 0 <= i < |daq| && daq[i] == (a, t);
    var j :| 0 <= j < |daq| && daq[j] == (b, t);
    assert Values(daq)[i] == t && Values(daq)[j] == t;
    assert i == j;
  }

  /** The same key occurs with one settings value only. */
  lemma SettingsOfKey(devs: seq<(string, DeviceSettings)>, i: nat, j: nat)
    requires UniqueKeys(devs) && i < |devs| && j < |devs| && devs[i].0 == devs[j].0
    ensures devs[i].1 == devs[j].1
  {
    assert Keys(devs)[i] == devs[i].0 && Keys(devs)[j] == devs[j].0;
  }

  /** Across `armTasks` and `generateTrigger` every DAQ task of a configured device is started
      exactly once: it is armed, or started in exactly one of the two software-trigger phases. */
  lemma EachDaqTaskStartedOnce(devs: seq<(string, DeviceSettings)>, daq: seq<(string, TaskHandle)>, i: nat)
    requires UniqueKeys(devs) && NoDup(Values(daq))
    requires i < |devs| && Lookup(daq, devs[i].0).Some?
    ensures var t := Lookup(daq, devs[i].0).value;
      (if t in ArmedTasks(devs, daq) then 1 else 0)
      + (if t in SoftTasks(devs, daq, false) then 1 else 0)
      + (if t in SoftTasks(devs, daq, true) then 1 else 0) == 1
  {
    var t := Lookup(daq, devs[i].0).value;
    var ds := devs[i].1;
    ArmedTasksMembers(devs, daq);
    SoftTasksMembers(devs, daq, false);
    SoftTasksMembers(devs, daq, true);
    forall j | 0 <= j < |devs| && Lookup(daq, devs[j].0) == Some(t) ensures devs[j].1 == ds {
      LookupInjective(daq, devs[j].0, devs[i].0);
      SettingsOfKey(devs, i, j);
    }
  }

  /** How the wait for the ready input ends. */
  datatype WaitOutcome = Ready | TimedOutRunAnyway | TimedOutAbort | Aborted | ReadFailed | StillWaiting

  /** What one pass of the wait loop observes: whether reading the ready line throws, the
      line, the abort flag at that moment, and the elapsed time in 100 ns ticks. */
  datatype ReadySample = ReadySample(readThrows: bool, ready: bool, abort: bool, elapsedTicks: int)

  /** Elapsed milliseconds exceed the timeout, which counts only when positive. */
  predicate TimedOut(s: ReadySample, timeoutMs: int) {
    timeoutMs > 0 && TruncDiv(s.elapsedTicks, 10000) > timeoutMs
  }

  /** The pass at which the loop stops. */
  predicate EndsWait(s: ReadySample, timeoutMs: int) {
    s.readThrows || s.ready || s.abort || TimedOut(s, timeoutMs)
  }

  /** The outcome of a pass that ends the wait: a read that throws ends it at once; otherwise
      an abort seen after the loop wins, then a ready line, then the timeout, which runs the
      sequence anyway or aborts. */
  function OutcomeAt(s: ReadySample, timeoutMs: int, runAnyway: bool): WaitOutcome {
    if s.readThrows then ReadFailed
    else if s.abort then Aborted
    else if s.ready then Ready
    else if runAnyway then TimedOutRunAnyway
    else TimedOutAbort
  }

  /** The ready-input loop of `generateTrigger`, over the passes it observes. */
  method WaitForReadyInput(samples: seq<ReadySample>, timeoutMs: int, runAnyway: bool)
    returns (outcome: WaitOutcome, passes: nat)
    ensures outcome == StillWaiting <==> forall j :: 0 <= j < |samples| ==> !EndsWait(samples[j], timeoutMs)
    ensures outcome == StillWaiting ==> passes == |samples|
    ensures outcome != StillWaiting ==>
      passes < |samples| && EndsWait(samples[passes], timeoutMs)
      && (forall j :: 0 <= j < passes ==> !EndsWait(samples[j], timeoutMs))
      && outcome == OutcomeAt(samples[passes], timeoutMs, runAnyway)
    ensures outcome == WaitResult(samples, timeoutMs, runAnyway)
  {
    passes := 0;
    while passes < |samples|
      invariant 0 <= passes <= |samples|
      invariant forall j :: 0 <= j < passes ==> !EndsWait(samples[j], timeoutMs)
    {
      var s := samples[passes];
      if s.readThrows {
        outcome := ReadFailed;
        return;
      }
      if s.ready || s.abort {
        outcome := if s.abort then Aborted else Ready;
        return;
      }
      if timeoutMs > 0 && TruncDiv(s.elapsedTicks, 10000) > timeoutMs {
        outcome := if runAnyway then TimedOutRunAnyway else TimedOutAbort;
        return;
      }
      passes := passes + 1;
    }
    outcome := StillWaiting;
  }

  /** The first pass that ends the wait, if any. */
  function FirstEnd(samples: seq<ReadySample>, timeoutMs: int): (r: Option<nat>)
    ensures r.None? <==> forall j :: 0 <= j < |samples| ==> !EndsWait(samples[j], timeoutMs)
    ensures r.Some? ==> r.value < |samples| && EndsWait(samples[r.value], timeoutMs)
                        && forall j :: 0 <= j < r.value ==> !EndsWait(samples[j], timeoutMs)
    decreases |samples|
  {
    if samples == [] then None
    else if EndsWait(samples[0], timeoutMs) then Some(0)
    else
      var rest := FirstEnd(samples[1..], timeoutMs);
      assert forall j :: 1 <= j < |samples| ==> samples[j] == samples[1..][j - 1];
      if rest.None? then None else Some(rest.value + 1)
  }

  /** How the wait ends over the observed passes. */
  function WaitResult(samples: seq<ReadySample>, timeoutMs: int, runAnyway: bool): WaitOutcome {
    var e := FirstEnd(samples, timeoutMs);
    if e.None? then StillWaiting else OutcomeAt(samples[e.value], timeoutMs, runAnyway)
  }

  /** The wait lets the run go on only when the ready line was seen or the timeout allows it. */
  predicate RunsAfterWait(o: WaitOutcome) {
    o == Ready || o == TimedOutRunAnyway
  }

  /** The events of the ready-input block of `generateTrigger` and the wait flags it leaves,
      from the flags `running0`, `abort0` and the next task id `n`. Without a ready input, or
      with a sequence that does not wait, nothing happens; a null sequence throws. Otherwise
      the reader task is created, the wait runs over `samples`, and once it ends the reader
      is disposed: the run goes on only after a ready line or a timeout that runs anyway, and
      the dispose after a refusing timeout precedes clearing the running flag. A read that
      throws ends the block at once: the reader is not disposed and the wait still counts
      as running. */
  predicate ReadyWaitDone(es: seq<DriverEvent>, ss: ServerSettings, sq: Option<SequenceData>, samples: seq<ReadySample>,
                          n: nat, proceed: Option<bool>, running0: bool, abort0: bool, running: bool, abort: bool)
  {
    if !Configured(ss.readyInput) || (sq.Some? && !sq.value.waitForReady) then
      es == [] && proceed == Some(true) && running == running0 && abort == abort0
    else if sq.None? then
      es == [] && proceed == Some(false) && running == running0 && abort == abort0
    else
      var t := TaskHandle(ReadyReaderTask, n);
      var o := WaitResult(samples, ss.readyTimeout, ss.readyTimeoutRunAnyway);
      && |es| >= 1 && es[0].action == Create(t)
      && (!es[0].ok ==> es == [es[0]] && proceed == Some(false) && running == running0 && abort == abort0)
      && (es[0].ok && o == StillWaiting ==> es == [es[0]] && proceed.None? && running && !abort)
      && (es[0].ok && o == ReadFailed ==> es == [es[0]] && proceed == Some(false) && running && !abort)
      && (es[0].ok && o != StillWaiting && o != ReadFailed ==>
            && |es| == 2 && es[1].action == Dispose(t)
            && proceed == Some(RunsAfterWait(o) && es[1].ok)
            && abort == (o == Aborted)
            && running == (o == TimedOutAbort && !es[1].ok))
  }

  /** With a ready input and a sequence that waits for it, the run goes on exactly when the
      reader task was created and disposed without a throw and the wait ended on a ready
      line or on a timeout that runs anyway; it never goes on while the wait still runs, and
      a read that throws refuses the run with the reader undisposed and the running flag set. */
  lemma ReadyWaitGate(es: seq<DriverEvent>, ss: ServerSettings, sq: Option<SequenceData>, samples: seq<ReadySample>,
                      n: nat, proceed: Option<bool>, running0: bool, abort0: bool, running: bool, abort: bool)
    requires ReadyWaitDone(es, ss, sq, samples, n, proceed, running0, abort0, running, abort)
    requires Configured(ss.readyInput) && sq.Some? && sq.value.waitForReady
    ensures proceed == Some(true) <==>
      && RunsAfterWait(WaitResult(samples, ss.readyTimeout, ss.readyTimeoutRunAnyway))
      && Completed(es, [Create(TaskHandle(ReadyReaderTask, n)), Dispose(TaskHandle(ReadyReaderTask, n))])
    ensures proceed.None? <==>
      |es| == 1 && es[0].ok && WaitResult(samples, ss.readyTimeout, ss.readyTimeoutRunAnyway) != ReadFailed
    ensures proceed.None? ==> running && forall j :: 0 <= j < |samples| ==> !EndsWait(samples[j], ss.readyTimeout)
    ensures es[0].ok && WaitResult(samples, ss.readyTimeout, ss.readyTimeoutRunAnyway) == ReadFailed ==>
      proceed == Some(false) && |es| == 1 && running
  {
    var t := TaskHandle(ReadyReaderTask, n);
    if |es| == 2 {
      assert Actions(es) == [es[0].action, es[1].action];
    }
  }

  /** What `generateTrigger` does once the wait lets the run go on: the trigger output
      pulse when a trigger output channel is set, then `TriggerStarts`. */
  function FireActions<K>(triggerOutput: Option<string>, devs: seq<(string, DeviceSettings)>,
                          daq: seq<(string, TaskHandle)>, gpib: seq<(K, TaskHandle)>, rs232: seq<(K, TaskHandle)>,
                          rfsg: seq<(K, TaskHandle)>, triggering: Option<TaskHandle>, vt: Option<TaskHandle>)
    : seq<DriverAction>
  {
    (if Configured(triggerOutput) then [PulseTrigger(triggerOutput.value)] else [])
      + TriggerStarts(devs, daq, gpib, rs232, rfsg, triggering, vt)
  }

  /** The starts of `generateTrigger`, in order: the soft-triggered DAQ tasks not marked
      "last", then, unless a triggering task will start them, the GPIB, RS232 and RFSG tasks,
      then the "last" DAQ tasks, then the variable timebase task. */
  function TriggerStarts<K>(devs: seq<(string, DeviceSettings)>, daq: seq<(string, TaskHandle)>,
                            gpib: seq<(K, TaskHandle)>, rs232: seq<(K, TaskHandle)>, rfsg: seq<(K, TaskHandle)>,
                            triggering: Option<TaskHandle>, vt: Option<TaskHandle>): seq<DriverAction>
  {
    StartAll(SoftTasks(devs, daq, false))
      + (if triggering.None? then StartAll(SoftwareTimedTasks(gpib, rs232, rfsg)) else [])
      + StartAll(SoftTasks(devs, daq, true))
      + (if vt.Some? then [Start(vt.value)] else [])
  }

  lemma {:induction false} StartedByStartAll(ts: seq<TaskHandle>)
    ensures StartedBy(StartAll(ts)) == ts
    decreases |ts|
  {
    if ts != [] {
      var init := ts[..|ts| - 1];
      StartedByStartAll(init);
      assert StartAll(ts)[..|ts| - 1] == StartAll(init);
      assert ts == init + [ts[|ts| - 1]];
    }
  }

  /** Triggering starts the soft-triggered tasks in their two phases around the software
      timed tasks, which it starts only when no triggering task was armed, and the timebase
      task last; no armed DAQ task is started again. */
  lemma TriggerStartsOrder<K>(devs: seq<(string, DeviceSettings)>, daq: seq<(string, TaskHandle)>,
                              gpib: seq<(K, TaskHandle)>, rs232: seq<(K, TaskHandle)>, rfsg: seq<(K, TaskHandle)>,
                              triggering: Option<TaskHandle>, vt: Option<TaskHandle>)
    requires UniqueKeys(devs) && NoDup(Values(daq))
    ensures StartedBy(TriggerStarts(devs, daq, gpib, rs232, rfsg, triggering, vt))
      == SoftTasks(devs, daq, false)
         + (if triggering.None? then SoftwareTimedTasks(gpib, rs232, rfsg) else [])
         + SoftTasks(devs, daq, true)
         + (if vt.Some? then [vt.value] else [])
    ensures forall t :: t in ArmedTasks(devs, daq) ==> t !in SoftTasks(devs, daq, false) && t !in SoftTasks(devs, daq, true)
  {
    var a := StartAll(SoftTasks(devs, daq, false));
    var b: seq<DriverAction> := if triggering.None? then StartAll(SoftwareTimedTasks(gpib, rs232, rfsg)) else [];
    var c := StartAll(SoftTasks(devs, daq, true));
    var d: seq<DriverAction> := if vt.Some? then [Start(vt.value)] else [];
    StartedByAppend(a + b + c, d);
    StartedByAppend(a + b, c);
    StartedByAppend(a, b);
    StartedByStartAll(SoftTasks(devs, daq, false));
    StartedByStartAll(SoftTasks(devs, daq, true));
    StartedByStartAll(SoftwareTimedTasks(gpib, rs232, rfsg));
    StartedByStartAll([]);
    if vt.Some? {
      StartedByStartAll([vt.value]);
      assert StartAll([vt.value]) == d;
    }
    assert StartAll([]) == [];
    ArmedTasksMembers(devs, daq);
    forall t | t in ArmedTasks(devs, daq)
      ensures t !in SoftTasks(devs, daq, false) && t !in SoftTasks(devs, daq, true)
    {
      var i :| 0 <= i < |devs| && ArmsDevice(devs[i].1) && Lookup(daq, devs[i].0) == Some(t);
      EachDaqTaskStartedOnce(devs, daq, i);
    }
  }

  /** The polling loop's wait over the reads it makes (`None` is a read that throws): the
      first pass whose read does not give the position read when arming, that is, the
      position moved or the read threw. */
  method FirstPollExit(positions: seq<Option<int>>, initial: int) returns (exit: Option<nat>)
    ensures exit.None? <==> forall j :: 0 <= j < |positions| ==> positions[j] == Some(initial)
    ensures exit.Some? ==> exit.value < |positions|
    ensures exit.Some? ==> positions[exit.value] != Some(initial)
    ensures exit.Some? ==> forall j :: 0 <= j < exit.value ==> positions[j] == Some(initial)
  {
    var i := 0;
    while i < |positions|
      invariant 0 <= i <= |positions|
      invariant forall j :: 0 <= j < i ==> positions[j] == Some(initial)
    {
      if positions[i] != Some(initial) {
        exit := Some(i);
        return;
      }
      i := i + 1;
    }
    exit := None;
  }

  /** The first-sample-clock handler's own state: whether it has fired, and how many
      further events it has ignored (a C# `int`). */
  datatype TriggerState = TriggerState(triggered: bool, ignored: int)

  /** The handler's effect on its state. The software timed tasks are started exactly on the
      calls where `triggered` was false. */
  function OnSampleClock(st: TriggerState): TriggerState {
    if !st.triggered then TriggerState(true, st.ignored)
    else TriggerState(true, Wrap32(st.ignored + 1))
  }

  /** The state after `n` sample-clock events. */
  function AfterSampleClocks(st: TriggerState, n: nat): TriggerState
    decreases n
  {
    if n == 0 then st else OnSampleClock(AfterSampleClocks(st, n - 1))
  }

  /** How many of `n` events start the software timed tasks. */
  function StartsDuring(st: TriggerState, n: nat): nat
    decreases n
  {
    if n == 0 then 0
    else StartsDuring(st, n - 1) + (if AfterSampleClocks(st, n - 1).triggered then 0 else 1)
  }

  lemma Wrap32Succ(x: int)
    ensures Wrap32(Wrap32(x) + 1) == Wrap32(x + 1)
  {
    var r := (x + TWO_TO_31) % TWO_TO_32;
    var q := (x + TWO_TO_31) / TWO_TO_32;
    assert x + TWO_TO_31 == q * TWO_TO_32 + r;
    assert Wrap32(x) + 1 + TWO_TO_31 == r + 1;
    if r + 1 < TWO_TO_32 {
      assert x + 1 + TWO_TO_31 == q * TWO_TO_32 + (r + 1);
    } else {
      assert x + 1 + TWO_TO_31 == (q + 1) * TWO_TO_32 + 0;
    }
  }

  /** After arming resets the handler, `n >= 1` sample-clock events start the software timed
      tasks exactly once and count the other `n - 1` events, wrapped to 32 bits. */
  lemma {:induction false} FirstSampleClockOnly(n: nat)
    requires n >= 1
    ensures StartsDuring(TriggerState(false, 0), n) == 1
    ensures AfterSampleClocks(TriggerState(false, 0), n) == TriggerState(true, Wrap32(n - 1))
    decreases n
  {
    if n > 1 {
      FirstSampleClockOnly(n - 1);
      Wrap32Succ(n - 2);
    }
  }
}
