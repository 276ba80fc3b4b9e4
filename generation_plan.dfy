/** The steps of `generateBuffers` after its null checks, as plans of stages: driver calls
    that may throw, checks of the model's data that throw when they fail (a missing
    dictionary key, a key added twice), and the changes of state between them (a task
    registered, a GPIB id reported). A step runs its stages in order until a call throws or a
    check fails, so it succeeds iff every check passes and every call returns, and the state
    it leaves is what the stages reached by then noted. */
module GenerationPlan {
  import opened Common
  import opened Hardware
  import opened Drivers
  import opened ChannelResolution
  import opened BufferPlan
  import opened TerminalRouting

  datatype ChannelRegistry = GpibRegistry | RfsgRegistry | Rs232Registry

  /** A change of state a stage makes: a task stored in a registry, or a GPIB id reported. */
  datatype Entry =
    | TimebaseEntry(task: TaskHandle)
    | DaqEntry(device: string, task: TaskHandle)
    | ChannelEntry(registry: ChannelRegistry, channel: HardwareChannel, task: TaskHandle)
    | MisconfiguredEntry(id: int)

  datatype Stage =
    | Call(action: DriverAction)
    | Check(passes: bool)
    | Note(entry: Entry)

  /** `es` are the events of running `stages` up to the first call that throws or the first
      check that fails, and `ok` says whether the run got through all of them. */
  predicate Ran(stages: seq<Stage>, es: seq<DriverEvent>, ok: bool)
    decreases |stages|
  {
    if stages == [] then es == [] && ok
    else match stages[0]
      case Call(a) =>
        && |es| > 0 && es[0].action == a
        && (if es[0].ok then Ran(stages[1..], es[1..], ok) else |es| == 1 && !ok)
      case Check(p) => if p then Ran(stages[1..], es, ok) else es == [] && !ok
      case Note(_) => Ran(stages[1..], es, ok)
  }

  /** The entries of the stages a run with events `es` reached. */
  function Noted(stages: seq<Stage>, es: seq<DriverEvent>): seq<Entry>
    decreases |stages|
  {
    if stages == [] then []
    else match stages[0]
      case Call(_) => if |es| > 0 && es[0].ok then Noted(stages[1..], es[1..]) else []
      case Check(p) => if p then Noted(stages[1..], es) else []
      case Note(e) => [e] + Noted(stages[1..], es)
  }

  predicate ChecksPass(stages: seq<Stage>) {
    forall i :: 0 <= i < |stages| && stages[i].Check? ==> stages[i].passes
  }

  lemma ChecksPassAppend(a: seq<Stage>, b: seq<Stage>)
    ensures ChecksPass(a + b) <==> ChecksPass(a) && ChecksPass(b)
  {
    assert forall i :: 0 <= i < |a| ==> (a + b)[i] == a[i];
    assert forall i :: 0 <= i < |b| ==> (a + b)[|a| + i] == b[i];
  }

  lemma AllOkCons(es: seq<DriverEvent>)
    requires |es| > 0
    ensures AllOk(es) <==> es[0].ok && AllOk(es[1..])
  {
    assert forall i :: 0 < i < |es| ==> es[i] == es[1..][i - 1];
  }

  /** A run succeeds exactly when every check of its plan passes and every call it made
      returned. */
  lemma {:induction false} RanOutcome(stages: seq<Stage>, es: seq<DriverEvent>, ok: bool)
    requires Ran(stages, es, ok)
    ensures ok <==> ChecksPass(stages) && AllOk(es)
    decreases |stages|
  {
    if stages != [] {
      var rest := stages[1..];
      assert stages == [stages[0]] + rest;
      ChecksPassAppend([stages[0]], rest);
      match stages[0]
      case Call(a) =>
        AllOkCons(es);
        if es[0].ok {
          RanOutcome(rest, es[1..], ok);
        }
      case Check(p) =>
        if p {
          RanOutcome(rest, es, ok);
        }
      case Note(_) =>
        RanOutcome(rest, es, ok);
    }
  }

  lemma {:induction false} RanJoin(s1: seq<Stage>, s2: seq<Stage>, e1: seq<DriverEvent>, e2: seq<DriverEvent>, ok: bool)
    requires Ran(s1, e1, true) && Ran(s2, e2, ok)
    ensures Ran(s1 + s2, e1 + e2, ok)
    decreases |s1|
  {
    if s1 == [] {
      assert s1 + s2 == s2 && e1 + e2 == e2;
    } else {
      var s := s1 + s2;
      assert s[0] == s1[0] && s[1..] == s1[1..] + s2;
      if s1[0].Call? {
        var e := e1 + e2;
        assert e[0] == e1[0] && e[1..] == e1[1..] + e2;
        RanJoin(s1[1..], s2, e1[1..], e2, ok);
      } else {
        RanJoin(s1[1..], s2, e1, e2, ok);
      }
    }
  }

  lemma {:induction false} NotedJoin(s1: seq<Stage>, s2: seq<Stage>, e1: seq<DriverEvent>, e2: seq<DriverEvent>)
    requires Ran(s1, e1, true)
    ensures Noted(s1 + s2, e1 + e2) == Noted(s1, e1) + Noted(s2, e2)
    decreases |s1|
  {
    if s1 == [] {
      assert s1 + s2 == s2 && e1 + e2 == e2;
    } else {
      var s := s1 + s2;
      assert s[0] == s1[0] && s[1..] == s1[1..] + s2;
      if s1[0].Call? {
        var e := e1 + e2;
        assert e[0] == e1[0] && e[1..] == e1[1..] + e2;
        NotedJoin(s1[1..], s2, e1[1..], e2);
      } else {
        NotedJoin(s1[1..], s2, e1, e2);
      }
    }
  }

  /** A plan run through followed by a plan run as far as it goes is the run of the two
      plans together, and notes what the two runs noted. */
  lemma RanAppend(s1: seq<Stage>, s2: seq<Stage>, e1: seq<DriverEvent>, e2: seq<DriverEvent>, ok: bool)
    requires Ran(s1, e1, true) && Ran(s2, e2, ok)
    ensures Ran(s1 + s2, e1 + e2, ok)
    ensures Noted(s1 + s2, e1 + e2) == Noted(s1, e1) + Noted(s2, e2)
  {
    RanJoin(s1, s2, e1, e2, ok);
    NotedJoin(s1, s2, e1, e2);
  }

  /** A run that stopped within a plan stops there whatever follows the plan. */
  lemma {:induction false} RanStoppedAppend(s1: seq<Stage>, s2: seq<Stage>, e1: seq<DriverEvent>)
    requires Ran(s1, e1, false)
    ensures Ran(s1 + s2, e1, false)
    ensures Noted(s1 + s2, e1) == Noted(s1, e1)
    decreases |s1|
  {
    assert s1 != [];
    assert (s1 + s2)[0] == s1[0] && (s1 + s2)[1..] == s1[1..] + s2;
    match s1[0]
    case Call(a) =>
      if e1[0].ok {
        RanStoppedAppend(s1[1..], s2, e1[1..]);
      }
    case Check(p) =>
      if p {
        RanStoppedAppend(s1[1..], s2, e1);
      }
    case Note(e) =>
      RanStoppedAppend(s1[1..], s2, e1);
  }

  lemma RanStoppedWithin(s1: seq<Stage>, s: seq<Stage>, e1: seq<DriverEvent>)
    requires Ran(s1, e1, false) && IsPrefix(s1, s)
    ensures Ran(s, e1, false) && Noted(s, e1) == Noted(s1, e1)
  {
    assert s == s1 + s[|s1|..];
    RanStoppedAppend(s1, s[|s1|..], e1);
  }

  /** One call in front of a plan. */
  lemma RanCall(a: DriverAction, r: bool, s: seq<Stage>, es: seq<DriverEvent>, ok: bool)
    requires if r then Ran(s, es, ok) else es == [] && !ok
    ensures Ran([Call(a)] + s, [DriverEvent(a, r)] + es, ok)
    ensures Noted([Call(a)] + s, [DriverEvent(a, r)] + es) == if r then Noted(s, es) else []
  {
    assert ([Call(a)] + s)[1..] == s;
    assert ([DriverEvent(a, r)] + es)[1..] == es;
  }

  /** One check in front of a plan. */
  lemma RanCheck(p: bool, s: seq<Stage>, es: seq<DriverEvent>, ok: bool)
    requires if p then Ran(s, es, ok) else es == [] && !ok
    ensures Ran([Check(p)] + s, es, ok)
    ensures Noted([Check(p)] + s, es) == if p then Noted(s, es) else []
  {
    assert ([Check(p)] + s)[1..] == s;
  }

  /** One change of state in front of a plan. */
  lemma RanNote(e: Entry, s: seq<Stage>, es: seq<DriverEvent>, ok: bool)
    requires Ran(s, es, ok)
    ensures Ran([Note(e)] + s, es, ok)
    ensures Noted([Note(e)] + s, es) == [e] + Noted(s, es)
  {
    assert ([Note(e)] + s)[1..] == s;
  }

  lemma RanNothing()
    ensures Ran([], [], true) && Noted([], []) == []
  {
  }

  // ----- What the noted entries put in each registry -----

  function DaqOf(es: seq<Entry>): seq<(string, TaskHandle)>
    decreases |es|
  {
    if es == [] then []
    else (if es[0].DaqEntry? then [(es[0].device, es[0].task)] else []) + DaqOf(es[1..])
  }

  function ChannelOf(es: seq<Entry>, reg: ChannelRegistry): seq<(HardwareChannel, TaskHandle)>
    decreases |es|
  {
    if es == [] then []
    else (if es[0].ChannelEntry? && es[0].registry == reg then [(es[0].channel, es[0].task)] else [])
         + ChannelOf(es[1..], reg)
  }

  function MisconfiguredOf(es: seq<Entry>): seq<int>
    decreases |es|
  {
    if es == [] then []
    else (if es[0].MisconfiguredEntry? then [es[0].id] else []) + MisconfiguredOf(es[1..])
  }

  function TimebaseOf(es: seq<Entry>): Option<TaskHandle>
    decreases |es|
  {
    if es == [] then None
    else if es[0].TimebaseEntry? then Some(es[0].task)
    else TimebaseOf(es[1..])
  }

  /** What one entry, or none, adds to each registry. */
  lemma EntryProjections(e: Entry)
    ensures DaqOf([]) == [] && MisconfiguredOf([]) == [] && TimebaseOf([]).None?
    ensures forall reg :: ChannelOf([], reg) == []
    ensures DaqOf([e]) == if e.DaqEntry? then [(e.device, e.task)] else []
    ensures forall reg :: ChannelOf([e], reg) == if e.ChannelEntry? && e.registry == reg then [(e.channel, e.task)] else []
    ensures MisconfiguredOf([e]) == if e.MisconfiguredEntry? then [e.id] else []
  {
    assert [e][1..] == [];
  }

  lemma {:induction false} DaqOfAppend(a: seq<Entry>, b: seq<Entry>)
    ensures DaqOf(a + b) == DaqOf(a) + DaqOf(b)
    decreases |a|
  {
    if a == [] {
      assert a + b == b;
    } else {
      assert (a + b)[0] == a[0] && (a + b)[1..] == a[1..] + b;
      DaqOfAppend(a[1..], b);
    }
  }

  lemma {:induction false} ChannelOfAppend(a: seq<Entry>, b: seq<Entry>, reg: ChannelRegistry)
    ensures ChannelOf(a + b, reg) == ChannelOf(a, reg) + ChannelOf(b, reg)
    decreases |a|
  {
    if a == [] {
      assert a + b == b;
    } else {
      assert (a + b)[0] == a[0] && (a + b)[1..] == a[1..] + b;
      ChannelOfAppend(a[1..], b, reg);
    }
  }

  lemma {:induction false} MisconfiguredOfAppend(a: seq<Entry>, b: seq<Entry>)
    ensures MisconfiguredOf(a + b) == MisconfiguredOf(a) + MisconfiguredOf(b)
    decreases |a|
  {
    if a == [] {
      assert a + b == b;
    } else {
      assert (a + b)[0] == a[0] && (a + b)[1..] == a[1..] + b;
      MisconfiguredOfAppend(a[1..], b);
    }
  }

  lemma {:induction false} TimebaseOfAppend(a: seq<Entry>, b: seq<Entry>)
    ensures TimebaseOf(a + b) == if TimebaseOf(a).Some? then TimebaseOf(a) else TimebaseOf(b)
    decreases |a|
  {
    if a == [] {
      assert a + b == b;
    } else {
      assert (a + b)[0] == a[0] && (a + b)[1..] == a[1..] + b;
      TimebaseOfAppend(a[1..], b);
    }
  }

  // ----- The plans of the generation steps -----

  /** The variable timebase: nothing without a timebase channel; otherwise the collision
      check, the settings lookup of a shared device under the as-written key, the creation,
      the task stored, and its subscription. */
  function TimebaseStages(tb: Option<string>, digital: seq<(int, HardwareChannel)>,
                          devs: seq<(string, DeviceSettings)>, n: nat): seq<Stage>
  {
    if !Configured(tb) then []
    else
      var t := TaskHandle(TimebaseTask, n);
      [Check(!TimebaseCollides(digital, tb.value)),
       Check(!SharesTimebaseDevice(digital, tb.value) || Lookup(devs, RecapitalisedDeviceName(tb.value)).Some?),
       Call(Create(t)), Note(TimebaseEntry(t)), Call(Subscribe(t))]
  }

  /** One device of the DAQ loop: the settings lookup, then for a selected device the
      creation, the subscription, the registration under a new key, and the buffer-size read
      of the log message that follows it. */
  function DaqDeviceStages(dev: string, n: nat, devs: seq<(string, DeviceSettings)>,
                           digital: seq<(int, HardwareChannel)>, analog: seq<(int, HardwareChannel)>,
                           keys: seq<string>): seq<Stage>
  {
    var t := TaskHandle(DaqMxTask, n);
    [Check(Lookup(devs, dev).Some?)]
    + if GetsDaqTask(devs, digital, analog, dev)
      then [Call(Create(t)), Call(Subscribe(t)), Check(dev !in keys), Note(DaqEntry(dev, t)), Call(QueryBuffer(t))]
      else []
  }

  /** The DAQ loop over `devices`, with task ids from `n` on and `keys` registered before. */
  function DaqLoopStages(devices: seq<string>, n: nat, devs: seq<(string, DeviceSettings)>,
                         digital: seq<(int, HardwareChannel)>, analog: seq<(int, HardwareChannel)>,
                         keys: seq<string>): seq<Stage>
    decreases |devices|
  {
    if devices == [] then []
    else
      var init := devices[..|devices| - 1];
      var done := DaqTaskDevices(init, devs, digital, analog);
      DaqLoopStages(init, n, devs, digital, analog, keys)
      + DaqDeviceStages(devices[|devices| - 1], n + |done|, devs, digital, analog, keys + done)
  }

  /** One used GPIB channel, by its role: a GPIB task is created before its device's settings
      are looked up; an RFSG task after; a masquerade of type NONE is only reported. */
  function GpibChannelStages(id: int, hc: HardwareChannel, n: nat, devs: seq<(string, DeviceSettings)>,
                             gpibKeys: seq<HardwareChannel>, rfsgKeys: seq<HardwareChannel>): seq<Stage>
  {
    match RoleOf(hc)
    case PlainGpib =>
      var t := TaskHandle(GpibTask, n);
      [Call(Create(t)), Check(Lookup(devs, hc.deviceName).Some?), Call(GenerateBuffer(t)), Call(Subscribe(t)),
       Check(hc !in gpibKeys), Note(ChannelEntry(GpibRegistry, hc, t))]
    case RfsgMasquerade =>
      var t := TaskHandle(RfsgTask, n);
      [Check(Lookup(devs, hc.deviceName).Some?), Call(Create(t)), Call(Subscribe(t)), Check(hc !in rfsgKeys),
       Note(ChannelEntry(RfsgRegistry, hc, t))]
    case UnconfiguredMasquerade =>
      [Note(MisconfiguredEntry(id))]
  }

  /** The tasks the GPIB channels of `m` get: one per plain channel and one per RFSG masquerade. */
  function GpibTaskCount(m: seq<(int, HardwareChannel)>): nat {
    |ChannelsWithRole(m, PlainGpib)| + |ChannelsWithRole(m, RfsgMasquerade)|
  }

  function GpibLoopStages(m: seq<(int, HardwareChannel)>, n: nat, devs: seq<(string, DeviceSettings)>,
                          gpibKeys: seq<HardwareChannel>, rfsgKeys: seq<HardwareChannel>): seq<Stage>
    decreases |m|
  {
    if m == [] then []
    else
      var init := m[..|m| - 1];
      GpibLoopStages(init, n, devs, gpibKeys, rfsgKeys)
      + GpibChannelStages(m[|m| - 1].0, m[|m| - 1].1, n + GpibTaskCount(init), devs,
                          gpibKeys + ChannelsWithRole(init, PlainGpib), rfsgKeys + ChannelsWithRole(init, RfsgMasquerade))
  }

  /** One used RS232 channel: the session and task, the lookup of the "Serial" settings, the
      buffer, the subscription, and the registration under a new key. */
  function Rs232ChannelStages(hc: HardwareChannel, n: nat, devs: seq<(string, DeviceSettings)>,
                              keys: seq<HardwareChannel>): seq<Stage>
  {
    var t := TaskHandle(RS232Task, n);
    [Call(Create(t)), Check(Lookup(devs, "Serial").Some?), Call(GenerateBuffer(t)), Call(Subscribe(t)),
     Check(hc !in keys), Note(ChannelEntry(Rs232Registry, hc, t))]
  }

  function Rs232LoopStages(m: seq<(int, HardwareChannel)>, n: nat, devs: seq<(string, DeviceSettings)>,
                           keys: seq<HardwareChannel>): seq<Stage>
    decreases |m|
  {
    if m == [] then []
    else
      var init := m[..|m| - 1];
      Rs232LoopStages(init, n, devs, keys) + Rs232ChannelStages(m[|m| - 1].1, n + |init|, devs, keys + Values(init))
  }

  function CallAll(plan: seq<DriverAction>): (r: seq<Stage>)
    ensures |r| == |plan|
    ensures forall i :: 0 <= i < |plan| ==> r[i] == Call(plan[i])
  {
    seq(|plan|, i requires 0 <= i < |plan| => Call(plan[i]))
  }

  /** A plan of calls alone runs through iff its calls complete, and stops iff they stop at a
      failure; it notes nothing. */
  lemma {:induction false} CallsRan(es: seq<DriverEvent>, plan: seq<DriverAction>)
    ensures Completed(es, plan) ==> Ran(CallAll(plan), es, true)
    ensures StoppedAtFailure(es, plan) ==> Ran(CallAll(plan), es, false)
    ensures Noted(CallAll(plan), es) == []
    decreases |plan|
  {
    if plan != [] {
      var rest := plan[1..];
      assert CallAll(plan)[1..] == CallAll(rest);
      if |es| > 0 {
        assert Actions(es)[1..] == Actions(es[1..]);
        AllOkCons(es);
        if |es| > 1 {
          assert es[..|es| - 1][1..] == es[1..][..|es[1..]| - 1];
          AllOkCons(es[..|es| - 1]);
        }
      }
      CallsRan(if |es| > 0 then es[1..] else [], rest);
    }
  }

  // ----- The whole generation -----

  /** What generation reads: the timebase channel, the channel maps, the device list, the
      device settings, the routes made and desired, and the driver's next task id. The
      digital channels the combined timebase generator takes over are a separate input,
      `consumed`. */
  datatype GenerationInputs = GenerationInputs(
    timebase: Option<string>,
    digital: seq<(int, HardwareChannel)>,
    analog: seq<(int, HardwareChannel)>,
    devices: Option<seq<string>>,
    devs: seq<(string, DeviceSettings)>,
    gpib: seq<(int, HardwareChannel)>,
    rs232: seq<(int, HardwareChannel)>,
    made: seq<TerminalPair>,
    connections: seq<TerminalPair>,
    nextId: nat)

  /** The digital map once the timebase step has run through. */
  function DigitalAfterTimebase(g: GenerationInputs, consumed: set<int>): seq<(int, HardwareChannel)> {
    if Configured(g.timebase) && SharesTimebaseDevice(g.digital, g.timebase.value)
    then WithoutIds(g.digital, consumed) else g.digital
  }

  function UsedDevices(g: GenerationInputs): seq<string> {
    if g.devices.Some? then g.devices.value else []
  }

  function DaqIdBase(g: GenerationInputs): nat {
    g.nextId + if Configured(g.timebase) then 1 else 0
  }

  function GpibIdBase(g: GenerationInputs, consumed: set<int>): nat {
    DaqIdBase(g) + |DaqTaskDevices(UsedDevices(g), g.devs, DigitalAfterTimebase(g, consumed), g.analog)|
  }

  /** The timebase, the device list's presence, then the DAQ loop. */
  function DeviceStages(g: GenerationInputs, consumed: set<int>): seq<Stage> {
    TimebaseStages(g.timebase, g.digital, g.devs, g.nextId)
    + ([Check(g.devices.Some?)]
       + DaqLoopStages(UsedDevices(g), DaqIdBase(g), g.devs, DigitalAfterTimebase(g, consumed), g.analog, []))
  }

  /** The RS232 loop from task id `n` on, then the routes. */
  function SerialStages(g: GenerationInputs, n: nat): seq<Stage> {
    Rs232LoopStages(g.rs232, n, g.devs, []) + CallAll(ReconcileActions(g.made, g.connections))
  }

  /** The GPIB loop, the RS232 loop, then the routes, from task id `n` on. */
  function ChannelStages(g: GenerationInputs, n: nat): seq<Stage> {
    GpibLoopStages(g.gpib, n, g.devs, [], []) + SerialStages(g, n + GpibTaskCount(g.gpib))
  }

  function GenerationStages(g: GenerationInputs, consumed: set<int>): seq<Stage> {
    DeviceStages(g, consumed) + ChannelStages(g, GpibIdBase(g, consumed))
  }

  /** Each element of `s` is neither among `keys` nor earlier in `s`. */
  predicate FreshEach<T(==)>(keys: seq<T>, s: seq<T>) {
    forall i :: 0 <= i < |s| ==> s[i] !in keys + s[..i]
  }

  lemma FreshEachSnoc<T>(keys: seq<T>, s: seq<T>, x: T)
    ensures FreshEach(keys, s + [x]) <==> FreshEach(keys, s) && x !in keys + s
  {
    var t := s + [x];
    assert forall i :: 0 <= i < |s| ==> t[i] == s[i] && t[..i] == s[..i];
    assert t[..|s|] == s;
  }

  lemma FreshEachEmpty<T>(s: seq<T>)
    ensures FreshEach([], s) <==> NoDup(s)
  {
    if FreshEach([], s) {
      forall i, j | 0 <= i < j < |s| ensures s[i] != s[j] {
        assert s[i] in [] + s[..j];
      }
    }
    if NoDup(s) {
      forall i | 0 <= i < |s| ensures s[i] !in [] + s[..i] {
        assert [] + s[..i] == s[..i];
        assert forall j :: 0 <= j < i ==> s[..i][j] == s[j];
      }
    }
  }

  /** The device step's conditions: the timebase is allowed and a shared timebase device
      has settings under the as-written key; the device list exists, every device on it has
      settings and no DAQ key is added twice. */
  predicate DeviceDataOk(g: GenerationInputs, consumed: set<int>) {
    && (Configured(g.timebase) ==>
          && !TimebaseCollides(g.digital, g.timebase.value)
          && (SharesTimebaseDevice(g.digital, g.timebase.value) ==>
                Lookup(g.devs, RecapitalisedDeviceName(g.timebase.value)).Some?))
    && g.devices.Some?
    && (forall d :: d in g.devices.value ==> Lookup(g.devs, d).Some?)
    && NoDup(DaqTaskDevices(g.devices.value, g.devs, DigitalAfterTimebase(g, consumed), g.analog))
  }

  /** The GPIB loop's conditions: every GPIB channel with a task has device settings and no
      GPIB or RFSG channel is registered twice. */
  predicate GpibDataOk(m: seq<(int, HardwareChannel)>, devs: seq<(string, DeviceSettings)>) {
    GpibSettingsFound(m, devs) && NoDup(ChannelsWithRole(m, PlainGpib)) && NoDup(ChannelsWithRole(m, RfsgMasquerade))
  }

  /** The RS232 loop's conditions: with RS232 channels there are "Serial" settings, and no
      RS232 channel is registered twice. */
  predicate Rs232DataOk(m: seq<(int, HardwareChannel)>, devs: seq<(string, DeviceSettings)>) {
    (m != [] ==> Lookup(devs, "Serial").Some?) && NoDup(Values(m))
  }

  /** Every stated condition of generation holds. */
  predicate GenerationDataOk(g: GenerationInputs, consumed: set<int>) {
    DeviceDataOk(g, consumed) && GpibDataOk(g.gpib, g.devs) && Rs232DataOk(g.rs232, g.devs)
  }

  lemma DaqDeviceChecks(dev: string, n: nat, devs: seq<(string, DeviceSettings)>,
                         digital: seq<(int, HardwareChannel)>, analog: seq<(int, HardwareChannel)>,
                         keys: seq<string>)
    ensures ChecksPass(DaqDeviceStages(dev, n, devs, digital, analog, keys))
            <==> Lookup(devs, dev).Some? && (GetsDaqTask(devs, digital, analog, dev) ==> dev !in keys)
  {
    var t := TaskHandle(DaqMxTask, n);
    var tail := [Call(Create(t)), Call(Subscribe(t)), Check(dev !in keys), Note(DaqEntry(dev, t)), Call(QueryBuffer(t))];
    var rest := if GetsDaqTask(devs, digital, analog, dev) then tail else [];
    ChecksPassAppend([Check(Lookup(devs, dev).Some?)], rest);
    assert [Check(Lookup(devs, dev).Some?)][0].Check?;
    assert tail[2].Check?;
  }

  lemma {:induction false} DaqLoopChecks(devices: seq<string>, n: nat, devs: seq<(string, DeviceSettings)>,
                                         digital: seq<(int, HardwareChannel)>, analog: seq<(int, HardwareChannel)>,
                                         keys: seq<string>)
    ensures ChecksPass(DaqLoopStages(devices, n, devs, digital, analog, keys))
            <==> (forall d :: d in devices ==> Lookup(devs, d).Some?)
                 && FreshEach(keys, DaqTaskDevices(devices, devs, digital, analog))
    decreases |devices|
  {
    if devices != [] {
      DaqLoopChecks(devices[..|devices| - 1], n, devs, digital, analog, keys);
      DaqLoopChecksStep(devices, n, devs, digital, analog, keys);
    }
  }

  /** The step of `DaqLoopChecks`: its equivalence for all of `devices` but the last one
      extends to `devices`. */
  lemma DaqLoopChecksStep(devices: seq<string>, n: nat, devs: seq<(string, DeviceSettings)>,
                          digital: seq<(int, HardwareChannel)>, analog: seq<(int, HardwareChannel)>,
                          keys: seq<string>)
    requires devices != []
    requires var init := devices[..|devices| - 1];
      ChecksPass(DaqLoopStages(init, n, devs, digital, analog, keys))
      <==> (forall d :: d in init ==> Lookup(devs, d).Some?)
           && FreshEach(keys, DaqTaskDevices(init, devs, digital, analog))
    ensures ChecksPass(DaqLoopStages(devices, n, devs, digital, analog, keys))
            <==> (forall d :: d in devices ==> Lookup(devs, d).Some?)
                 && FreshEach(keys, DaqTaskDevices(devices, devs, digital, analog))
  {
    var init := devices[..|devices| - 1];
    var dev := devices[|devices| - 1];
    var done := DaqTaskDevices(init, devs, digital, analog);
    var step := DaqDeviceStages(dev, n + |done|, devs, digital, analog, keys + done);
    ChecksPassAppend(DaqLoopStages(init, n, devs, digital, analog, keys), step);
    DaqDeviceChecks(dev, n + |done|, devs, digital, analog, keys + done);
    FreshEachSnoc(keys, done, dev);
    DevicesFoundSnoc(devices, devs);
  }

  lemma DevicesFoundSnoc(devices: seq<string>, devs: seq<(string, DeviceSettings)>)
    requires devices != []
    ensures (forall d :: d in devices ==> Lookup(devs, d).Some?)
            <==> (forall d :: d in devices[..|devices| - 1] ==> Lookup(devs, d).Some?)
                 && Lookup(devs, devices[|devices| - 1]).Some?
  {
    assert devices == devices[..|devices| - 1] + [devices[|devices| - 1]];
  }

  lemma GpibChannelChecks(id: int, hc: HardwareChannel, n: nat, devs: seq<(string, DeviceSettings)>,
                          gpibKeys: seq<HardwareChannel>, rfsgKeys: seq<HardwareChannel>)
    ensures ChecksPass(GpibChannelStages(id, hc, n, devs, gpibKeys, rfsgKeys))
            <==> (RoleOf(hc) != UnconfiguredMasquerade ==> Lookup(devs, hc.deviceName).Some?)
                 && (RoleOf(hc) == PlainGpib ==> hc !in gpibKeys)
                 && (RoleOf(hc) == RfsgMasquerade ==> hc !in rfsgKeys)
  {
    var step := GpibChannelStages(id, hc, n, devs, gpibKeys, rfsgKeys);
    if RoleOf(hc) == PlainGpib {
      assert step[1] == Check(Lookup(devs, hc.deviceName).Some?) && step[4] == Check(hc !in gpibKeys);
    } else if RoleOf(hc) == RfsgMasquerade {
      assert step[0] == Check(Lookup(devs, hc.deviceName).Some?) && step[3] == Check(hc !in rfsgKeys);
    }
  }

  /** Every GPIB channel of `m` with a task has device settings. */
  predicate GpibSettingsFound(m: seq<(int, HardwareChannel)>, devs: seq<(string, DeviceSettings)>) {
    forall i :: 0 <= i < |m| && RoleOf(m[i].1) != UnconfiguredMasquerade ==> Lookup(devs, m[i].1.deviceName).Some?
  }

  lemma GpibSettingsFoundSnoc(m: seq<(int, HardwareChannel)>, devs: seq<(string, DeviceSettings)>)
    requires m != []
    ensures GpibSettingsFound(m, devs) <==>
      GpibSettingsFound(m[..|m| - 1], devs)
      && (RoleOf(m[|m| - 1].1) != UnconfiguredMasquerade ==> Lookup(devs, m[|m| - 1].1.deviceName).Some?)
  {
    assert forall i :: 0 <= i < |m| - 1 ==> m[..|m| - 1][i] == m[i];
  }

  lemma {:induction false} GpibLoopChecks(m: seq<(int, HardwareChannel)>, n: nat, devs: seq<(string, DeviceSettings)>,
                                          gpibKeys: seq<HardwareChannel>, rfsgKeys: seq<HardwareChannel>)
    ensures ChecksPass(GpibLoopStages(m, n, devs, gpibKeys, rfsgKeys))
            <==> GpibSettingsFound(m, devs)
                 && FreshEach(gpibKeys, ChannelsWithRole(m, PlainGpib))
                 && FreshEach(rfsgKeys, ChannelsWithRole(m, RfsgMasquerade))
    decreases |m|
  {
    if m != [] {
      GpibLoopChecks(m[..|m| - 1], n, devs, gpibKeys, rfsgKeys);
      GpibLoopChecksStep(m, n, devs, gpibKeys, rfsgKeys);
    }
  }

  /** The step of `GpibLoopChecks`: its equivalence for all of `m` but the last channel
      extends to `m`. */
  lemma GpibLoopChecksStep(m: seq<(int, HardwareChannel)>, n: nat, devs: seq<(string, DeviceSettings)>,
                           gpibKeys: seq<HardwareChannel>, rfsgKeys: seq<HardwareChannel>)
    requires m != []
    requires var init := m[..|m| - 1];
      ChecksPass(GpibLoopStages(init, n, devs, gpibKeys, rfsgKeys))
      <==> GpibSettingsFound(init, devs)
           && FreshEach(gpibKeys, ChannelsWithRole(init, PlainGpib))
           && FreshEach(rfsgKeys, ChannelsWithRole(init, RfsgMasquerade))
    ensures ChecksPass(GpibLoopStages(m, n, devs, gpibKeys, rfsgKeys))
            <==> GpibSettingsFound(m, devs)
                 && FreshEach(gpibKeys, ChannelsWithRole(m, PlainGpib))
                 && FreshEach(rfsgKeys, ChannelsWithRole(m, RfsgMasquerade))
  {
    var init := m[..|m| - 1];
    var (id, hc) := m[|m| - 1];
    var p, r := ChannelsWithRole(init, PlainGpib), ChannelsWithRole(init, RfsgMasquerade);
    var step := GpibChannelStages(id, hc, n + GpibTaskCount(init), devs, gpibKeys + p, rfsgKeys + r);
    ChecksPassAppend(GpibLoopStages(init, n, devs, gpibKeys, rfsgKeys), step);
    GpibChannelChecks(id, hc, n + GpibTaskCount(init), devs, gpibKeys + p, rfsgKeys + r);
    FreshEachSnoc(gpibKeys, p, hc);
    FreshEachSnoc(rfsgKeys, r, hc);
    GpibSettingsFoundSnoc(m, devs);
  }

  lemma Rs232ChannelChecks(hc: HardwareChannel, n: nat, devs: seq<(string, DeviceSettings)>, keys: seq<HardwareChannel>)
    ensures ChecksPass(Rs232ChannelStages(hc, n, devs, keys)) <==> Lookup(devs, "Serial").Some? && hc !in keys
  {
    var step := Rs232ChannelStages(hc, n, devs, keys);
    assert step[1] == Check(Lookup(devs, "Serial").Some?) && step[4] == Check(hc !in keys);
  }

  lemma {:induction false} Rs232LoopChecks(m: seq<(int, HardwareChannel)>, n: nat, devs: seq<(string, DeviceSettings)>,
                                           keys: seq<HardwareChannel>)
    ensures ChecksPass(Rs232LoopStages(m, n, devs, keys))
            <==> (m != [] ==> Lookup(devs, "Serial").Some?) && FreshEach(keys, Values(m))
    decreases |m|
  {
    if m != [] {
      Rs232LoopChecks(m[..|m| - 1], n, devs, keys);
      Rs232LoopChecksStep(m, n, devs, keys);
    }
  }

  /** The step of `Rs232LoopChecks`: its equivalence for all of `m` but the last channel
      extends to `m`. */
  lemma Rs232LoopChecksStep(m: seq<(int, HardwareChannel)>, n: nat, devs: seq<(string, DeviceSettings)>,
                            keys: seq<HardwareChannel>)
    requires m != []
    requires var init := m[..|m| - 1];
      ChecksPass(Rs232LoopStages(init, n, devs, keys))
      <==> (init != [] ==> Lookup(devs, "Serial").Some?) && FreshEach(keys, Values(init))
    ensures ChecksPass(Rs232LoopStages(m, n, devs, keys))
            <==> Lookup(devs, "Serial").Some? && FreshEach(keys, Values(m))
  {
    var init := m[..|m| - 1];
    var hc := m[|m| - 1].1;
    var step := Rs232ChannelStages(hc, n + |init|, devs, keys + Values(init));
    ChecksPassAppend(Rs232LoopStages(init, n, devs, keys), step);
    Rs232ChannelChecks(hc, n + |init|, devs, keys + Values(init));
    assert Values(m) == Values(init) + [hc];
    FreshEachSnoc(keys, Values(init), hc);
  }

  lemma CallsPass(plan: seq<DriverAction>)
    ensures ChecksPass(CallAll(plan))
  {
  }

  lemma TimebaseChecks(tb: Option<string>, digital: seq<(int, HardwareChannel)>,
                        devs: seq<(string, DeviceSettings)>, n: nat)
    ensures ChecksPass(TimebaseStages(tb, digital, devs, n)) <==>
      (Configured(tb) ==>
         && !TimebaseCollides(digital, tb.value)
         && (SharesTimebaseDevice(digital, tb.value) ==> Lookup(devs, RecapitalisedDeviceName(tb.value)).Some?))
  {
    var s := TimebaseStages(tb, digital, devs, n);
    if Configured(tb) {
      assert s[0].Check? && s[1].Check?;
    }
  }

  lemma DeviceChecks(g: GenerationInputs, consumed: set<int>)
    ensures ChecksPass(DeviceStages(g, consumed)) <==> DeviceDataOk(g, consumed)
  {
    var tb := TimebaseStages(g.timebase, g.digital, g.devs, g.nextId);
    var daq := DaqLoopStages(UsedDevices(g), DaqIdBase(g), g.devs, DigitalAfterTimebase(g, consumed), g.analog, []);
    ChecksPassAppend([Check(g.devices.Some?)], daq);
    ChecksPassAppend(tb, [Check(g.devices.Some?)] + daq);
    assert [Check(g.devices.Some?)][0].Check?;
    TimebaseChecks(g.timebase, g.digital, g.devs, g.nextId);
    DaqLoopChecks(UsedDevices(g), DaqIdBase(g), g.devs, DigitalAfterTimebase(g, consumed), g.analog, []);
    FreshEachEmpty(DaqTaskDevices(UsedDevices(g), g.devs, DigitalAfterTimebase(g, consumed), g.analog));
  }

  lemma GpibPlanChecks(m: seq<(int, HardwareChannel)>, n: nat, devs: seq<(string, DeviceSettings)>)
    ensures ChecksPass(GpibLoopStages(m, n, devs, [], [])) <==> GpibDataOk(m, devs)
  {
    GpibLoopChecks(m, n, devs, [], []);
    FreshEachEmpty(ChannelsWithRole(m, PlainGpib));
    FreshEachEmpty(ChannelsWithRole(m, RfsgMasquerade));
  }

  lemma Rs232PlanChecks(m: seq<(int, HardwareChannel)>, n: nat, devs: seq<(string, DeviceSettings)>)
    ensures ChecksPass(Rs232LoopStages(m, n, devs, [])) <==> Rs232DataOk(m, devs)
  {
    Rs232LoopChecks(m, n, devs, []);
    FreshEachEmpty(Values(m));
  }

  lemma SerialChecks(g: GenerationInputs, n: nat)
    ensures ChecksPass(SerialStages(g, n)) <==> Rs232DataOk(g.rs232, g.devs)
  {
    CallsPass(ReconcileActions(g.made, g.connections));
    ChecksPassAppend(Rs232LoopStages(g.rs232, n, g.devs, []), CallAll(ReconcileActions(g.made, g.connections)));
    Rs232PlanChecks(g.rs232, n, g.devs);
  }

  lemma ChannelChecks(g: GenerationInputs, n: nat)
    ensures ChecksPass(ChannelStages(g, n)) <==> GpibDataOk(g.gpib, g.devs) && Rs232DataOk(g.rs232, g.devs)
  {
    ChecksPassAppend(GpibLoopStages(g.gpib, n, g.devs, [], []), SerialStages(g, n + GpibTaskCount(g.gpib)));
    GpibPlanChecks(g.gpib, n, g.devs);
    SerialChecks(g, n + GpibTaskCount(g.gpib));
  }

  /** The checks of the whole generation pass exactly when its data conditions hold. */
  lemma GenerationChecks(g: GenerationInputs, consumed: set<int>)
    ensures ChecksPass(GenerationStages(g, consumed)) <==> GenerationDataOk(g, consumed)
  {
    ChecksPassAppend(DeviceStages(g, consumed), ChannelStages(g, GpibIdBase(g, consumed)));
    DeviceChecks(g, consumed);
    ChannelChecks(g, GpibIdBase(g, consumed));
  }

  /** The device part gets through exactly when its data conditions hold and no driver call
      it made threw. */
  lemma DeviceOutcome(g: GenerationInputs, consumed: set<int>, es: seq<DriverEvent>, ok: bool)
    requires Ran(DeviceStages(g, consumed), es, ok)
    ensures ok <==> DeviceDataOk(g, consumed) && AllOk(es)
  {
    RanOutcome(DeviceStages(g, consumed), es, ok);
    DeviceChecks(g, consumed);
  }

  /** The channel part gets through exactly when its data conditions hold and no driver call
      it made threw. */
  lemma ChannelOutcome(g: GenerationInputs, n: nat, es: seq<DriverEvent>, ok: bool)
    requires Ran(ChannelStages(g, n), es, ok)
    ensures ok <==> GpibDataOk(g.gpib, g.devs) && Rs232DataOk(g.rs232, g.devs) && AllOk(es)
  {
    RanOutcome(ChannelStages(g, n), es, ok);
    ChannelChecks(g, n);
  }

  /** Generation succeeds exactly when every data condition holds and no driver call it made
      threw. */
  lemma GenerationOutcome(g: GenerationInputs, consumed: set<int>, es: seq<DriverEvent>, ok: bool)
    requires Ran(GenerationStages(g, consumed), es, ok)
    ensures ok <==> GenerationDataOk(g, consumed) && AllOk(es)
  {
    RanOutcome(GenerationStages(g, consumed), es, ok);
    GenerationChecks(g, consumed);
  }

  // ----- Prefixes of the loop plans -----

  lemma {:induction false} DaqLoopStagesPrefix(devices: seq<string>, i: nat, n: nat, devs: seq<(string, DeviceSettings)>,
                                               digital: seq<(int, HardwareChannel)>, analog: seq<(int, HardwareChannel)>,
                                               keys: seq<string>)
    requires i <= |devices|
    ensures IsPrefix(DaqLoopStages(devices[..i], n, devs, digital, analog, keys),
                     DaqLoopStages(devices, n, devs, digital, analog, keys))
    decreases |devices| - i
  {
    if i < |devices| {
      var init := devices[..|devices| - 1];
      DaqLoopStagesPrefix(init, i, n, devs, digital, analog, keys);
      assert init[..i] == devices[..i];
      PrefixTransitive(DaqLoopStages(devices[..i], n, devs, digital, analog, keys),
                       DaqLoopStages(init, n, devs, digital, analog, keys),
                       DaqLoopStages(devices, n, devs, digital, analog, keys));
    } else {
      assert devices[..i] == devices;
    }
  }

  lemma {:induction false} GpibLoopStagesPrefix(m: seq<(int, HardwareChannel)>, i: nat, n: nat,
                                                devs: seq<(string, DeviceSettings)>,
                                                gpibKeys: seq<HardwareChannel>, rfsgKeys: seq<HardwareChannel>)
    requires i <= |m|
    ensures IsPrefix(GpibLoopStages(m[..i], n, devs, gpibKeys, rfsgKeys), GpibLoopStages(m, n, devs, gpibKeys, rfsgKeys))
    decreases |m| - i
  {
    if i < |m| {
      var init := m[..|m| - 1];
      GpibLoopStagesPrefix(init, i, n, devs, gpibKeys, rfsgKeys);
      assert init[..i] == m[..i];
      PrefixTransitive(GpibLoopStages(m[..i], n, devs, gpibKeys, rfsgKeys), GpibLoopStages(init, n, devs, gpibKeys, rfsgKeys),
                       GpibLoopStages(m, n, devs, gpibKeys, rfsgKeys));
    } else {
      assert m[..i] == m;
    }
  }

  lemma {:induction false} Rs232LoopStagesPrefix(m: seq<(int, HardwareChannel)>, i: nat, n: nat,
                                                 devs: seq<(string, DeviceSettings)>, keys: seq<HardwareChannel>)
    requires i <= |m|
    ensures IsPrefix(Rs232LoopStages(m[..i], n, devs, keys), Rs232LoopStages(m, n, devs, keys))
    decreases |m| - i
  {
    if i < |m| {
      var init := m[..|m| - 1];
      Rs232LoopStagesPrefix(init, i, n, devs, keys);
      assert init[..i] == m[..i];
      PrefixTransitive(Rs232LoopStages(m[..i], n, devs, keys), Rs232LoopStages(init, n, devs, keys),
                       Rs232LoopStages(m, n, devs, keys));
    } else {
      assert m[..i] == m;
    }
  }

  // ----- The runs of one step, by the outcomes of its driver calls -----

  /** The timebase step: with `created` the outcome of the creation, the run stops at a
      refused channel, at a missing settings entry, or at a creation that throws, and
      otherwise stores and subscribes the task. */
  lemma TimebaseRun(tb: Option<string>, digital: seq<(int, HardwareChannel)>, devs: seq<(string, DeviceSettings)>,
                    n: nat, created: bool)
    ensures var t := TaskHandle(TimebaseTask, n);
      var s := TimebaseStages(tb, digital, devs, n);
      var passes := Configured(tb) && !TimebaseCollides(digital, tb.value)
                    && (!SharesTimebaseDevice(digital, tb.value) || Lookup(devs, RecapitalisedDeviceName(tb.value)).Some?);
      var es := if !passes then []
                else if created then [DriverEvent(Create(t), true), DriverEvent(Subscribe(t), true)]
                else [DriverEvent(Create(t), false)];
      var ok := !Configured(tb) || (passes && created);
      Ran(s, es, ok) && Noted(s, es) == if passes && created then [TimebaseEntry(t)] else []
  {
    if Configured(tb) {
      var t := TaskHandle(TimebaseTask, n);
      var c := !TimebaseCollides(digital, tb.value);
      var k := !SharesTimebaseDevice(digital, tb.value) || Lookup(devs, RecapitalisedDeviceName(tb.value)).Some?;
      var sub := [Call(Subscribe(t))];
      var tail := [Call(Create(t)), Note(TimebaseEntry(t))] + sub;
      assert [Check(c)] + ([Check(k)] + tail) == TimebaseStages(tb, digital, devs, n);
      if !c {
        RanCheck(c, [Check(k)] + tail, [], false);
      } else if !k {
        RanCheck(k, tail, [], false);
        RanCheck(c, [Check(k)] + tail, [], false);
      } else {
        var es := if created then [DriverEvent(Create(t), true), DriverEvent(Subscribe(t), true)]
                  else [DriverEvent(Create(t), false)];
        if created {
          RanCall(Subscribe(t), true, [], [], true);
          RanNote(TimebaseEntry(t), sub, [DriverEvent(Subscribe(t), true)], true);
          RanCall(Create(t), true, [Note(TimebaseEntry(t))] + sub, [DriverEvent(Subscribe(t), true)], true);
        } else {
          RanCall(Create(t), false, [Note(TimebaseEntry(t))] + sub, [], false);
        }
        assert [Call(Create(t))] + ([Note(TimebaseEntry(t))] + sub) == tail;
        RanCheck(k, tail, es, created);
        RanCheck(c, [Check(k)] + tail, es, created);
      }
    }
  }

  /** One device of the DAQ loop: with `created` the outcome of the creation and `queried`
      that of the buffer-size read, the run stops at a missing settings entry, a creation
      that throws, a device registered before, or a read that throws; a task that reached
      the registry stays there even when the read after it throws. */
  /** The events of one device's run, given whether its task was created and its buffer
      size read. */
  function DaqDeviceEvents(dev: string, n: nat, devs: seq<(string, DeviceSettings)>,
                           digital: seq<(int, HardwareChannel)>, analog: seq<(int, HardwareChannel)>,
                           keys: seq<string>, created: bool, queried: bool): seq<DriverEvent>
  {
    var t := TaskHandle(DaqMxTask, n);
    if Lookup(devs, dev).None? || !GetsDaqTask(devs, digital, analog, dev) then []
    else [DriverEvent(Create(t), created)]
         + if !created then []
           else [DriverEvent(Subscribe(t), true)] + if dev in keys then [] else [DriverEvent(QueryBuffer(t), queried)]
  }

  /** The outcome of one device's run, read off its events. */
  lemma DaqDeviceEventFacts(dev: string, n: nat, devs: seq<(string, DeviceSettings)>,
                            digital: seq<(int, HardwareChannel)>, analog: seq<(int, HardwareChannel)>,
                            keys: seq<string>, created: bool, queried: bool)
    ensures var t := TaskHandle(DaqMxTask, n);
      var found := Lookup(devs, dev).Some?;
      var wants := GetsDaqTask(devs, digital, analog, dev);
      var es := DaqDeviceEvents(dev, n, devs, digital, analog, keys, created, queried);
      var ok := found && (wants ==> created && dev !in keys && queried);
      && (!wants ==> es == [])
      && (wants ==> |es| > 0 && es[0] == DriverEvent(Create(t), created))
      && (ok && wants ==> es == [DriverEvent(Create(t), true), DriverEvent(Subscribe(t), true), DriverEvent(QueryBuffer(t), true)])
      && (ok <==> found && (wants ==> created && dev !in keys && AllOk(es)))
  {
    var t := TaskHandle(DaqMxTask, n);
    var es := DaqDeviceEvents(dev, n, devs, digital, analog, keys, created, queried);
    if Lookup(devs, dev).Some? && GetsDaqTask(devs, digital, analog, dev) && created && dev !in keys {
      assert es == [DriverEvent(Create(t), true), DriverEvent(Subscribe(t), true), DriverEvent(QueryBuffer(t), queried)];
      assert es[2].ok == queried;
    }
  }

  lemma DaqDeviceRun(dev: string, n: nat, devs: seq<(string, DeviceSettings)>,
                     digital: seq<(int, HardwareChannel)>, analog: seq<(int, HardwareChannel)>,
                     keys: seq<string>, created: bool, queried: bool)
    ensures var t := TaskHandle(DaqMxTask, n);
      var s := DaqDeviceStages(dev, n, devs, digital, analog, keys);
      var found := Lookup(devs, dev).Some?;
      var wants := GetsDaqTask(devs, digital, analog, dev);
      var stored := found && wants && created && dev !in keys;
      var es := DaqDeviceEvents(dev, n, devs, digital, analog, keys, created, queried);
      var ok := found && (wants ==> created && dev !in keys && queried);
      && Ran(s, es, ok)
      && Noted(s, es) == (if stored then [DaqEntry(dev, t)] else [])
      && DaqOf(Noted(s, es)) == if stored then [(dev, t)] else []
  {
    var t := TaskHandle(DaqMxTask, n);
    var found := Lookup(devs, dev).Some?;
    var isNew := dev !in keys;
    var qb := [Call(QueryBuffer(t))];
    var t3 := [Check(isNew), Note(DaqEntry(dev, t))] + qb;
    var t2 := [Call(Subscribe(t))] + t3;
    var tail := [Call(Create(t))] + t2;
    var rest := if GetsDaqTask(devs, digital, analog, dev) then tail else [];
    assert DaqDeviceStages(dev, n, devs, digital, analog, keys) == [Check(found)] + rest;
    if !found {
      RanCheck(found, rest, [], false);
    } else if !GetsDaqTask(devs, digital, analog, dev) {
      RanCheck(found, [], [], true);
    } else if !created {
      RanCall(Create(t), false, t2, [], false);
      RanCheck(found, tail, [DriverEvent(Create(t), false)], false);
    } else {
      var eq := if isNew then [DriverEvent(QueryBuffer(t), queried)] else [];
      var ok := isNew && queried;
      if isNew {
        RanCall(QueryBuffer(t), queried, [], [], queried);
        RanNote(DaqEntry(dev, t), qb, eq, ok);
        assert [Note(DaqEntry(dev, t))] + qb == t3[1..];
        RanCheck(isNew, t3[1..], eq, ok);
        assert [Check(isNew)] + t3[1..] == t3;
      } else {
        RanCheck(isNew, t3[1..], eq, ok);
        assert [Check(isNew)] + t3[1..] == t3;
      }
      RanCall(Subscribe(t), true, t3, eq, ok);
      RanCall(Create(t), true, t2, [DriverEvent(Subscribe(t), true)] + eq, ok);
      RanCheck(found, tail, [DriverEvent(Create(t), true)] + ([DriverEvent(Subscribe(t), true)] + eq), ok);
    }
  }

  /** A plain GPIB channel: the run stops at a creation that throws, a missing settings
      entry, a buffer generation that throws, or a channel registered before; only a run
      that gets through registers the task. */
  /** The events of a GPIB or RS232 channel's run: the task is created, its device settings
      looked up, its buffer generated and the task subscribed, up to the first call that
      throws or a missing settings entry. */
  function BufferedTaskEvents(t: TaskHandle, found: bool, created: bool, generated: bool): seq<DriverEvent> {
    [DriverEvent(Create(t), created)]
    + if !created || !found then []
      else [DriverEvent(GenerateBuffer(t), generated)] + if !generated then [] else [DriverEvent(Subscribe(t), true)]
  }

  /** The events of an RFSG masquerade's run: after its device settings are found, the task
      is created and subscribed. */
  function RfsgEvents(t: TaskHandle, found: bool, created: bool): seq<DriverEvent> {
    if !found then [] else [DriverEvent(Create(t), created)] + if !created then [] else [DriverEvent(Subscribe(t), true)]
  }

  lemma PlainGpibRun(id: int, hc: HardwareChannel, n: nat, devs: seq<(string, DeviceSettings)>,
                     gpibKeys: seq<HardwareChannel>, rfsgKeys: seq<HardwareChannel>, created: bool, generated: bool)
    requires RoleOf(hc) == PlainGpib
    ensures var s := GpibChannelStages(id, hc, n, devs, gpibKeys, rfsgKeys);
      var found := Lookup(devs, hc.deviceName).Some?;
      var t := TaskHandle(GpibTask, n);
      var es := BufferedTaskEvents(t, found, created, generated);
      var ok := created && found && generated && hc !in gpibKeys;
      && Ran(s, es, ok)
      && Noted(s, es) == if ok then [ChannelEntry(GpibRegistry, hc, t)] else []
  {
    var found := Lookup(devs, hc.deviceName).Some?;
    var t := TaskHandle(GpibTask, n);
    var isNew := hc !in gpibKeys;
    var note := [Note(ChannelEntry(GpibRegistry, hc, t))];
    var t4 := [Check(isNew)] + note;
    var t3 := [Call(Subscribe(t))] + t4;
    var t2 := [Call(GenerateBuffer(t))] + t3;
    var t1 := [Check(found)] + t2;
    assert GpibChannelStages(id, hc, n, devs, gpibKeys, rfsgKeys) == [Call(Create(t))] + t1;
    if created && found && generated {
      RanNote(ChannelEntry(GpibRegistry, hc, t), [], [], true);
      RanCheck(isNew, note, [], isNew);
      RanCall(Subscribe(t), true, t4, [], isNew);
      RanCall(GenerateBuffer(t), true, t3, [DriverEvent(Subscribe(t), true)], isNew);
      RanCheck(found, t2, [DriverEvent(GenerateBuffer(t), true), DriverEvent(Subscribe(t), true)], isNew);
      RanCall(Create(t), true, t1, [DriverEvent(GenerateBuffer(t), true), DriverEvent(Subscribe(t), true)], isNew);
    } else if created && found {
      RanCall(GenerateBuffer(t), false, t3, [], false);
      RanCheck(found, t2, [DriverEvent(GenerateBuffer(t), false)], false);
      RanCall(Create(t), true, t1, [DriverEvent(GenerateBuffer(t), false)], false);
    } else if created {
      RanCheck(found, t2, [], false);
      RanCall(Create(t), true, t1, [], false);
    } else {
      RanCall(Create(t), false, t1, [], false);
    }
  }

  /** An RFSG masquerade: the run stops at a missing settings entry, a creation that throws,
      or a channel registered before; only a run that gets through registers the task. */
  lemma RfsgRun(id: int, hc: HardwareChannel, n: nat, devs: seq<(string, DeviceSettings)>,
                gpibKeys: seq<HardwareChannel>, rfsgKeys: seq<HardwareChannel>, created: bool)
    requires RoleOf(hc) == RfsgMasquerade
    ensures var s := GpibChannelStages(id, hc, n, devs, gpibKeys, rfsgKeys);
      var found := Lookup(devs, hc.deviceName).Some?;
      var t := TaskHandle(RfsgTask, n);
      var es := RfsgEvents(t, found, created);
      var ok := found && created && hc !in rfsgKeys;
      && Ran(s, es, ok)
      && Noted(s, es) == if ok then [ChannelEntry(RfsgRegistry, hc, t)] else []
  {
    var found := Lookup(devs, hc.deviceName).Some?;
    var t := TaskHandle(RfsgTask, n);
    var isNew := hc !in rfsgKeys;
    var note := [Note(ChannelEntry(RfsgRegistry, hc, t))];
    var t3 := [Check(isNew)] + note;
    var t2 := [Call(Subscribe(t))] + t3;
    var t1 := [Call(Create(t))] + t2;
    assert GpibChannelStages(id, hc, n, devs, gpibKeys, rfsgKeys) == [Check(found)] + t1;
    if found && created {
      RanNote(ChannelEntry(RfsgRegistry, hc, t), [], [], true);
      RanCheck(isNew, note, [], isNew);
      RanCall(Subscribe(t), true, t3, [], isNew);
      RanCall(Create(t), true, t2, [DriverEvent(Subscribe(t), true)], isNew);
      RanCheck(found, t1, [DriverEvent(Create(t), true), DriverEvent(Subscribe(t), true)], isNew);
    } else if found {
      RanCall(Create(t), false, t2, [], false);
      RanCheck(found, t1, [DriverEvent(Create(t), false)], false);
    } else {
      RanCheck(found, t1, [], false);
    }
  }

  /** A masquerade of type NONE is reported without a driver call. */
  lemma UnconfiguredRun(id: int, hc: HardwareChannel, n: nat, devs: seq<(string, DeviceSettings)>,
                        gpibKeys: seq<HardwareChannel>, rfsgKeys: seq<HardwareChannel>)
    requires RoleOf(hc) == UnconfiguredMasquerade
    ensures var s := GpibChannelStages(id, hc, n, devs, gpibKeys, rfsgKeys);
      Ran(s, [], true) && Noted(s, []) == [MisconfiguredEntry(id)]
  {
    RanNote(MisconfiguredEntry(id), [], [], true);
  }

  /** One used RS232 channel: the run stops at a creation that throws, a missing "Serial"
      entry, a buffer generation that throws, or a channel registered before; only a run
      that gets through registers the task. */
  lemma Rs232ChannelRun(hc: HardwareChannel, n: nat, devs: seq<(string, DeviceSettings)>, keys: seq<HardwareChannel>,
                        created: bool, generated: bool)
    ensures var t := TaskHandle(RS232Task, n);
      var s := Rs232ChannelStages(hc, n, devs, keys);
      var found := Lookup(devs, "Serial").Some?;
      var es := BufferedTaskEvents(t, found, created, generated);
      var ok := created && found && generated && hc !in keys;
      && Ran(s, es, ok)
      && Noted(s, es) == if ok then [ChannelEntry(Rs232Registry, hc, t)] else []
  {
    var t := TaskHandle(RS232Task, n);
    var found := Lookup(devs, "Serial").Some?;
    var isNew := hc !in keys;
    var note := [Note(ChannelEntry(Rs232Registry, hc, t))];
    var t4 := [Check(isNew)] + note;
    var t3 := [Call(Subscribe(t))] + t4;
    var t2 := [Call(GenerateBuffer(t))] + t3;
    var t1 := [Check(found)] + t2;
    assert Rs232ChannelStages(hc, n, devs, keys) == [Call(Create(t))] + t1;
    if created && found && generated {
      RanNote(ChannelEntry(Rs232Registry, hc, t), [], [], true);
      RanCheck(isNew, note, [], isNew);
      RanCall(Subscribe(t), true, t4, [], isNew);
      RanCall(GenerateBuffer(t), true, t3, [DriverEvent(Subscribe(t), true)], isNew);
      RanCheck(found, t2, [DriverEvent(GenerateBuffer(t), true), DriverEvent(Subscribe(t), true)], isNew);
      RanCall(Create(t), true, t1, [DriverEvent(GenerateBuffer(t), true), DriverEvent(Subscribe(t), true)], isNew);
    } else if created && found {
      RanCall(GenerateBuffer(t), false, t3, [], false);
      RanCheck(found, t2, [DriverEvent(GenerateBuffer(t), false)], false);
      RanCall(Create(t), true, t1, [DriverEvent(GenerateBuffer(t), false)], false);
    } else if created {
      RanCheck(found, t2, [], false);
      RanCall(Create(t), true, t1, [], false);
    } else {
      RanCall(Create(t), false, t1, [], false);
    }
  }

  /** A loop whose first steps ran through, followed by one more step run as far as it
      goes: the run of the longer loop, or of the whole loop once that step stops it. */
  lemma LoopStep(prefix: seq<Stage>, step: seq<Stage>, whole: seq<Stage>, e1: seq<DriverEvent>, e2: seq<DriverEvent>,
                 ok: bool)
    requires Ran(prefix, e1, true) && Ran(step, e2, ok) && IsPrefix(prefix + step, whole)
    ensures Ran(prefix + step, e1 + e2, ok)
    ensures !ok ==> Ran(whole, e1 + e2, false)
    ensures Noted(prefix + step, e1 + e2) == Noted(prefix, e1) + Noted(step, e2)
    ensures !ok ==> Noted(whole, e1 + e2) == Noted(prefix, e1) + Noted(step, e2)
  {
    RanAppend(prefix, step, e1, e2, ok);
    if !ok {
      RanStoppedWithin(prefix + step, whole, e1 + e2);
    }
  }

  // ----- Which registries the notes of each plan reach -----

  datatype EntryKind = TimebaseKind | DaqKind | ChannelKind(registry: ChannelRegistry) | MisconfiguredKind

  function KindOf(e: Entry): EntryKind {
    match e
    case TimebaseEntry(_) => TimebaseKind
    case DaqEntry(_, _) => DaqKind
    case ChannelEntry(reg, _, _) => ChannelKind(reg)
    case MisconfiguredEntry(_) => MisconfiguredKind
  }

  predicate NotesOfKinds(stages: seq<Stage>, ks: set<EntryKind>) {
    forall i :: 0 <= i < |stages| && stages[i].Note? ==> KindOf(stages[i].entry) in ks
  }

  predicate EntriesOfKinds(es: seq<Entry>, ks: set<EntryKind>) {
    forall i :: 0 <= i < |es| ==> KindOf(es[i]) in ks
  }

  lemma NotesOfKindsAppend(a: seq<Stage>, b: seq<Stage>, ks: set<EntryKind>)
    requires NotesOfKinds(a, ks) && NotesOfKinds(b, ks)
    ensures NotesOfKinds(a + b, ks)
  {
    assert forall i :: |a| <= i < |a + b| ==> (a + b)[i] == b[i - |a|];
  }

  /** What a run notes comes from the notes of its plan. */
  lemma {:induction false} NotedOfKinds(stages: seq<Stage>, es: seq<DriverEvent>, ks: set<EntryKind>)
    requires NotesOfKinds(stages, ks)
    ensures EntriesOfKinds(Noted(stages, es), ks)
    decreases |stages|
  {
    if stages != [] {
      assert NotesOfKinds(stages[1..], ks) by {
        assert forall i :: 0 <= i < |stages| - 1 ==> stages[1..][i] == stages[i + 1];
      }
      var rest := if stages[0].Call? && |es| > 0 then es[1..] else es;
      NotedOfKinds(stages[1..], rest, ks);
    }
  }

  /** A list of entries none of whose kinds is that of a registry adds nothing to it. */
  lemma {:induction false} DaqOfNone(es: seq<Entry>, ks: set<EntryKind>)
    requires EntriesOfKinds(es, ks) && DaqKind !in ks
    ensures DaqOf(es) == []
    decreases |es|
  {
    if es != [] {
      assert EntriesOfKinds(es[1..], ks) by {
        assert forall i :: 0 <= i < |es| - 1 ==> es[1..][i] == es[i + 1];
      }
      DaqOfNone(es[1..], ks);
      assert KindOf(es[0]) in ks;
    }
  }

  lemma {:induction false} ChannelOfNone(es: seq<Entry>, ks: set<EntryKind>, reg: ChannelRegistry)
    requires EntriesOfKinds(es, ks) && ChannelKind(reg) !in ks
    ensures ChannelOf(es, reg) == []
    decreases |es|
  {
    if es != [] {
      assert EntriesOfKinds(es[1..], ks) by {
        assert forall i :: 0 <= i < |es| - 1 ==> es[1..][i] == es[i + 1];
      }
      ChannelOfNone(es[1..], ks, reg);
      assert KindOf(es[0]) in ks;
    }
  }

  lemma {:induction false} MisconfiguredOfNone(es: seq<Entry>, ks: set<EntryKind>)
    requires EntriesOfKinds(es, ks) && MisconfiguredKind !in ks
    ensures MisconfiguredOf(es) == []
    decreases |es|
  {
    if es != [] {
      assert EntriesOfKinds(es[1..], ks) by {
        assert forall i :: 0 <= i < |es| - 1 ==> es[1..][i] == es[i + 1];
      }
      MisconfiguredOfNone(es[1..], ks);
      assert KindOf(es[0]) in ks;
    }
  }

  lemma {:induction false} TimebaseOfNone(es: seq<Entry>, ks: set<EntryKind>)
    requires EntriesOfKinds(es, ks) && TimebaseKind !in ks
    ensures TimebaseOf(es).None?
    decreases |es|
  {
    if es != [] {
      assert EntriesOfKinds(es[1..], ks) by {
        assert forall i :: 0 <= i < |es| - 1 ==> es[1..][i] == es[i + 1];
      }
      TimebaseOfNone(es[1..], ks);
      assert KindOf(es[0]) in ks;
    }
  }

  lemma {:induction false} DaqLoopKinds(devices: seq<string>, n: nat, devs: seq<(string, DeviceSettings)>,
                                        digital: seq<(int, HardwareChannel)>, analog: seq<(int, HardwareChannel)>,
                                        keys: seq<string>)
    ensures NotesOfKinds(DaqLoopStages(devices, n, devs, digital, analog, keys), {DaqKind})
    decreases |devices|
  {
    if devices != [] {
      var init := devices[..|devices| - 1];
      var done := DaqTaskDevices(init, devs, digital, analog);
      DaqLoopKinds(init, n, devs, digital, analog, keys);
      var step := DaqDeviceStages(devices[|devices| - 1], n + |done|, devs, digital, analog, keys + done);
      assert NotesOfKinds(step, {DaqKind});
      NotesOfKindsAppend(DaqLoopStages(init, n, devs, digital, analog, keys), step, {DaqKind});
    }
  }

  lemma {:induction false} GpibLoopKinds(m: seq<(int, HardwareChannel)>, n: nat, devs: seq<(string, DeviceSettings)>,
                                         gpibKeys: seq<HardwareChannel>, rfsgKeys: seq<HardwareChannel>)
    ensures NotesOfKinds(GpibLoopStages(m, n, devs, gpibKeys, rfsgKeys),
                         {ChannelKind(GpibRegistry), ChannelKind(RfsgRegistry), MisconfiguredKind})
    decreases |m|
  {
    if m != [] {
      var init := m[..|m| - 1];
      var ks := {ChannelKind(GpibRegistry), ChannelKind(RfsgRegistry), MisconfiguredKind};
      GpibLoopKinds(init, n, devs, gpibKeys, rfsgKeys);
      var step := GpibChannelStages(m[|m| - 1].0, m[|m| - 1].1, n + GpibTaskCount(init), devs,
                                    gpibKeys + ChannelsWithRole(init, PlainGpib), rfsgKeys + ChannelsWithRole(init, RfsgMasquerade));
      assert NotesOfKinds(step, ks);
      NotesOfKindsAppend(GpibLoopStages(init, n, devs, gpibKeys, rfsgKeys), step, ks);
    }
  }

  lemma {:induction false} Rs232LoopKinds(m: seq<(int, HardwareChannel)>, n: nat, devs: seq<(string, DeviceSettings)>,
                                          keys: seq<HardwareChannel>)
    ensures NotesOfKinds(Rs232LoopStages(m, n, devs, keys), {ChannelKind(Rs232Registry)})
    decreases |m|
  {
    if m != [] {
      var init := m[..|m| - 1];
      Rs232LoopKinds(init, n, devs, keys);
      var step := Rs232ChannelStages(m[|m| - 1].1, n + |init|, devs, keys + Values(init));
      assert NotesOfKinds(step, {ChannelKind(Rs232Registry)});
      NotesOfKindsAppend(Rs232LoopStages(init, n, devs, keys), step, {ChannelKind(Rs232Registry)});
    }
  }

  // ----- The whole generation, assembled from its steps -----

  /** The timebase step, then the device list's presence, then the DAQ loop: what each run
      noted is what the whole device part noted. */
  lemma DeviceRun(g: GenerationInputs, consumed: set<int>, eTb: seq<DriverEvent>, okTb: bool,
                  eDaq: seq<DriverEvent>, okDaq: bool)
    requires Ran(TimebaseStages(g.timebase, g.digital, g.devs, g.nextId), eTb, okTb)
    requires okTb && g.devices.Some? ==>
      Ran(DaqLoopStages(UsedDevices(g), DaqIdBase(g), g.devs, DigitalAfterTimebase(g, consumed), g.analog, []), eDaq, okDaq)
    ensures var reached := okTb && g.devices.Some?;
      var es := if reached then eTb + eDaq else eTb;
      var n := Noted(DeviceStages(g, consumed), es);
      && Ran(DeviceStages(g, consumed), es, reached && okDaq)
      && n == Noted(TimebaseStages(g.timebase, g.digital, g.devs, g.nextId), eTb)
              + if reached then Noted(DaqLoopStages(UsedDevices(g), DaqIdBase(g), g.devs, DigitalAfterTimebase(g, consumed),
                                                    g.analog, []), eDaq) else []
    ensures var reached := okTb && g.devices.Some?;
      var n := Noted(DeviceStages(g, consumed), if reached then eTb + eDaq else eTb);
      var nTb := Noted(TimebaseStages(g.timebase, g.digital, g.devs, g.nextId), eTb);
      var nDaq := Noted(DaqLoopStages(UsedDevices(g), DaqIdBase(g), g.devs, DigitalAfterTimebase(g, consumed), g.analog, []),
                        eDaq);
      && TimebaseOf(n) == TimebaseOf(nTb)
      && DaqOf(n) == DaqOf(nTb) + if reached then DaqOf(nDaq) else []
  {
    var tb := TimebaseStages(g.timebase, g.digital, g.devs, g.nextId);
    var daq := DaqLoopStages(UsedDevices(g), DaqIdBase(g), g.devs, DigitalAfterTimebase(g, consumed), g.analog, []);
    var c := [Check(g.devices.Some?)];
    var nTb := Noted(tb, eTb);
    var nDaq := Noted(daq, eDaq);
    DaqLoopKinds(UsedDevices(g), DaqIdBase(g), g.devs, DigitalAfterTimebase(g, consumed), g.analog, []);
    NotedOfKinds(daq, eDaq, {DaqKind});
    TimebaseOfNone(nDaq, {DaqKind});
    TimebaseOfAppend(nTb, nDaq);
    DaqOfAppend(nTb, nDaq);
    if !okTb {
      RanStoppedAppend(tb, c + daq, eTb);
    } else if g.devices.None? {
      RanCheck(false, daq, [], false);
      RanAppend(tb, c + daq, eTb, [], false);
      assert eTb + [] == eTb;
    } else {
      RanCheck(true, daq, eDaq, okDaq);
      RanAppend(tb, c + daq, eTb, eDaq, okDaq);
    }
  }

  /** The RS232 loop, then the routes, which note nothing. */
  lemma Rs232ThenRoutesRun(rs: seq<Stage>, plan: seq<DriverAction>, eR: seq<DriverEvent>, okR: bool,
                           eC: seq<DriverEvent>, okC: bool)
    requires Ran(rs, eR, okR)
    requires okR ==> Ran(CallAll(plan), eC, okC)
    ensures Ran(rs + CallAll(plan), if okR then eR + eC else eR, okR && okC)
    ensures Noted(rs + CallAll(plan), if okR then eR + eC else eR) == Noted(rs, eR)
  {
    CallsRan(eC, plan);
    if okR {
      RanAppend(rs, CallAll(plan), eR, eC, okC);
      assert Noted(rs, eR) + [] == Noted(rs, eR);
    } else {
      RanStoppedAppend(rs, CallAll(plan), eR);
    }
  }

  /** The GPIB loop's notes reach the GPIB and RFSG registries and the reported ids; the
      RS232 loop's only the RS232 registry. */
  lemma ChannelProjections(nG: seq<Entry>, nR: seq<Entry>)
    requires EntriesOfKinds(nG, {ChannelKind(GpibRegistry), ChannelKind(RfsgRegistry), MisconfiguredKind})
    requires EntriesOfKinds(nR, {ChannelKind(Rs232Registry)})
    ensures ChannelOf(nG + nR, GpibRegistry) == ChannelOf(nG, GpibRegistry)
    ensures ChannelOf(nG + nR, RfsgRegistry) == ChannelOf(nG, RfsgRegistry)
    ensures MisconfiguredOf(nG + nR) == MisconfiguredOf(nG)
    ensures ChannelOf(nG + nR, Rs232Registry) == ChannelOf(nR, Rs232Registry)
  {
    ChannelOfNone(nG, {ChannelKind(GpibRegistry), ChannelKind(RfsgRegistry), MisconfiguredKind}, Rs232Registry);
    ChannelOfNone(nR, {ChannelKind(Rs232Registry)}, GpibRegistry);
    ChannelOfNone(nR, {ChannelKind(Rs232Registry)}, RfsgRegistry);
    MisconfiguredOfNone(nR, {ChannelKind(Rs232Registry)});
    ChannelOfAppend(nG, nR, GpibRegistry);
    ChannelOfAppend(nG, nR, RfsgRegistry);
    ChannelOfAppend(nG, nR, Rs232Registry);
    MisconfiguredOfAppend(nG, nR);
  }

  lemma SerialRun(g: GenerationInputs, n: nat, eR: seq<DriverEvent>, okR: bool, eC: seq<DriverEvent>, okC: bool)
    requires Ran(Rs232LoopStages(g.rs232, n, g.devs, []), eR, okR)
    requires okR ==> Ran(CallAll(ReconcileActions(g.made, g.connections)), eC, okC)
    ensures Ran(SerialStages(g, n), if okR then eR + eC else eR, okR && okC)
    ensures Noted(SerialStages(g, n), if okR then eR + eC else eR) == Noted(Rs232LoopStages(g.rs232, n, g.devs, []), eR)
  {
    Rs232ThenRoutesRun(Rs232LoopStages(g.rs232, n, g.devs, []), ReconcileActions(g.made, g.connections), eR, okR, eC, okC);
  }

  /** The GPIB loop, then the RS232 loop, then the routes. */
  /** Two plans in a row: a run that stops in the first performs nothing of the second. */
  lemma ThenRun(s1: seq<Stage>, s2: seq<Stage>, e1: seq<DriverEvent>, ok1: bool, e2: seq<DriverEvent>, ok2: bool)
    requires Ran(s1, e1, ok1)
    requires ok1 ==> Ran(s2, e2, ok2)
    ensures Ran(s1 + s2, if ok1 then e1 + e2 else e1, ok1 && ok2)
    ensures Noted(s1 + s2, if ok1 then e1 + e2 else e1) == Noted(s1, e1) + if ok1 then Noted(s2, e2) else []
  {
    if ok1 {
      RanAppend(s1, s2, e1, e2, ok2);
    } else {
      RanStoppedAppend(s1, s2, e1);
      assert Noted(s1, e1) + [] == Noted(s1, e1);
    }
  }

  /** The registries reached by the notes of the two channel loops. */
  lemma ChannelLoopProjections(g: GenerationInputs, n: nat, eG: seq<DriverEvent>, eR: seq<DriverEvent>, reached: bool)
    ensures var nG := Noted(GpibLoopStages(g.gpib, n, g.devs, [], []), eG);
      var nR := if reached then Noted(Rs232LoopStages(g.rs232, n + GpibTaskCount(g.gpib), g.devs, []), eR) else [];
      && ChannelOf(nG + nR, GpibRegistry) == ChannelOf(nG, GpibRegistry)
      && ChannelOf(nG + nR, RfsgRegistry) == ChannelOf(nG, RfsgRegistry)
      && MisconfiguredOf(nG + nR) == MisconfiguredOf(nG)
      && ChannelOf(nG + nR, Rs232Registry) == ChannelOf(nR, Rs232Registry)
  {
    var gk := {ChannelKind(GpibRegistry), ChannelKind(RfsgRegistry), MisconfiguredKind};
    var rk := {ChannelKind(Rs232Registry)};
    GpibLoopKinds(g.gpib, n, g.devs, [], []);
    NotedOfKinds(GpibLoopStages(g.gpib, n, g.devs, [], []), eG, gk);
    Rs232LoopKinds(g.rs232, n + GpibTaskCount(g.gpib), g.devs, []);
    NotedOfKinds(Rs232LoopStages(g.rs232, n + GpibTaskCount(g.gpib), g.devs, []), eR, rk);
    ChannelProjections(Noted(GpibLoopStages(g.gpib, n, g.devs, [], []), eG),
                       if reached then Noted(Rs232LoopStages(g.rs232, n + GpibTaskCount(g.gpib), g.devs, []), eR) else []);
  }

  lemma ChannelRun(g: GenerationInputs, n: nat, eG: seq<DriverEvent>, okG: bool, eR: seq<DriverEvent>, okR: bool,
                   eC: seq<DriverEvent>, okC: bool)
    requires Ran(GpibLoopStages(g.gpib, n, g.devs, [], []), eG, okG)
    requires okG ==> Ran(Rs232LoopStages(g.rs232, n + GpibTaskCount(g.gpib), g.devs, []), eR, okR)
    requires okG && okR ==> Ran(CallAll(ReconcileActions(g.made, g.connections)), eC, okC)
    ensures var es := if okG then eG + if okR then eR + eC else eR else eG;
      var nG := Noted(GpibLoopStages(g.gpib, n, g.devs, [], []), eG);
      var nR := if okG then Noted(Rs232LoopStages(g.rs232, n + GpibTaskCount(g.gpib), g.devs, []), eR) else [];
      && Ran(ChannelStages(g, n), es, okG && okR && okC)
      && Noted(ChannelStages(g, n), es) == nG + nR
  {
    if okG {
      SerialRun(g, n + GpibTaskCount(g.gpib), eR, okR, eC, okC);
    }
    ThenRun(GpibLoopStages(g.gpib, n, g.devs, [], []), SerialStages(g, n + GpibTaskCount(g.gpib)),
            eG, okG, if okR then eR + eC else eR, okR && okC);
  }

  /** The device part's notes reach the timebase and DAQ registries; the channel part's the
      channel registries and the reported ids. */
  lemma PartProjections(nD: seq<Entry>, nC: seq<Entry>)
    requires EntriesOfKinds(nD, {TimebaseKind, DaqKind})
    requires EntriesOfKinds(nC, {ChannelKind(GpibRegistry), ChannelKind(RfsgRegistry), ChannelKind(Rs232Registry),
                                 MisconfiguredKind})
    ensures TimebaseOf(nD + nC) == TimebaseOf(nD) && DaqOf(nD + nC) == DaqOf(nD)
    ensures ChannelOf(nD + nC, GpibRegistry) == ChannelOf(nC, GpibRegistry)
    ensures ChannelOf(nD + nC, RfsgRegistry) == ChannelOf(nC, RfsgRegistry)
    ensures ChannelOf(nD + nC, Rs232Registry) == ChannelOf(nC, Rs232Registry)
    ensures MisconfiguredOf(nD + nC) == MisconfiguredOf(nC)
  {
    DevicePartProjections(nD, nC);
    ChannelPartProjections(nD, nC);
  }

  lemma DevicePartProjections(nD: seq<Entry>, nC: seq<Entry>)
    requires EntriesOfKinds(nC, {ChannelKind(GpibRegistry), ChannelKind(RfsgRegistry), ChannelKind(Rs232Registry),
                                 MisconfiguredKind})
    ensures TimebaseOf(nD + nC) == TimebaseOf(nD) && DaqOf(nD + nC) == DaqOf(nD)
  {
    TimebaseOfNone(nC, {ChannelKind(GpibRegistry), ChannelKind(RfsgRegistry), ChannelKind(Rs232Registry),
                        MisconfiguredKind});
    DaqOfNone(nC, {ChannelKind(GpibRegistry), ChannelKind(RfsgRegistry), ChannelKind(Rs232Registry),
                   MisconfiguredKind});
    TimebaseOfAppend(nD, nC);
    DaqOfAppend(nD, nC);
    assert DaqOf(nD) + [] == DaqOf(nD);
  }

  lemma ChannelPartProjections(nD: seq<Entry>, nC: seq<Entry>)
    requires EntriesOfKinds(nD, {TimebaseKind, DaqKind})
    ensures ChannelOf(nD + nC, GpibRegistry) == ChannelOf(nC, GpibRegistry)
    ensures ChannelOf(nD + nC, RfsgRegistry) == ChannelOf(nC, RfsgRegistry)
    ensures ChannelOf(nD + nC, Rs232Registry) == ChannelOf(nC, Rs232Registry)
    ensures MisconfiguredOf(nD + nC) == MisconfiguredOf(nC)
  {
    ChannelOfNone(nD, {TimebaseKind, DaqKind}, GpibRegistry);
    ChannelOfNone(nD, {TimebaseKind, DaqKind}, RfsgRegistry);
    ChannelOfNone(nD, {TimebaseKind, DaqKind}, Rs232Registry);
    MisconfiguredOfNone(nD, {TimebaseKind, DaqKind});
    ChannelOfAppend(nD, nC, GpibRegistry);
    ChannelOfAppend(nD, nC, RfsgRegistry);
    ChannelOfAppend(nD, nC, Rs232Registry);
    MisconfiguredOfAppend(nD, nC);
  }

  /** The device part, then the channel part. */
  lemma GenerationRun(g: GenerationInputs, consumed: set<int>, eD: seq<DriverEvent>, okD: bool,
                      eC: seq<DriverEvent>, okC: bool)
    requires Ran(DeviceStages(g, consumed), eD, okD)
    requires okD ==> Ran(ChannelStages(g, GpibIdBase(g, consumed)), eC, okC)
    ensures var es := if okD then eD + eC else eD;
      var n := Noted(GenerationStages(g, consumed), es);
      var nD := Noted(DeviceStages(g, consumed), eD);
      var nC := if okD then Noted(ChannelStages(g, GpibIdBase(g, consumed)), eC) else [];
      && Ran(GenerationStages(g, consumed), es, okD && okC)
      && n == nD + nC
      && TimebaseOf(n) == TimebaseOf(nD) && DaqOf(n) == DaqOf(nD)
      && ChannelOf(n, GpibRegistry) == ChannelOf(nC, GpibRegistry)
      && ChannelOf(n, RfsgRegistry) == ChannelOf(nC, RfsgRegistry)
      && ChannelOf(n, Rs232Registry) == ChannelOf(nC, Rs232Registry)
      && MisconfiguredOf(n) == MisconfiguredOf(nC)
  {
    var nD := Noted(DeviceStages(g, consumed), eD);
    var nC := if okD then Noted(ChannelStages(g, GpibIdBase(g, consumed)), eC) else [];
    DeviceKinds(g, consumed, eD);
    ChannelKinds(g, GpibIdBase(g, consumed), eC);
    PartProjections(nD, nC);
    if okD {
      RanAppend(DeviceStages(g, consumed), ChannelStages(g, GpibIdBase(g, consumed)), eD, eC, okC);
    } else {
      RanStoppedAppend(DeviceStages(g, consumed), ChannelStages(g, GpibIdBase(g, consumed)), eD);
      assert Noted(DeviceStages(g, consumed), eD) + [] == Noted(DeviceStages(g, consumed), eD);
    }
  }

  /** The device part notes only the timebase and DAQ tasks. */
  lemma DeviceKinds(g: GenerationInputs, consumed: set<int>, eD: seq<DriverEvent>)
    ensures EntriesOfKinds(Noted(DeviceStages(g, consumed), eD), {TimebaseKind, DaqKind})
  {
    var dk := {TimebaseKind, DaqKind};
    var tb := TimebaseStages(g.timebase, g.digital, g.devs, g.nextId);
    var daq := DaqLoopStages(UsedDevices(g), DaqIdBase(g), g.devs, DigitalAfterTimebase(g, consumed), g.analog, []);
    DaqLoopKinds(UsedDevices(g), DaqIdBase(g), g.devs, DigitalAfterTimebase(g, consumed), g.analog, []);
    assert NotesOfKinds(daq, dk);
    assert NotesOfKinds(tb, dk) && NotesOfKinds([Check(g.devices.Some?)], dk);
    NotesOfKindsAppend([Check(g.devices.Some?)], daq, dk);
    NotesOfKindsAppend(tb, [Check(g.devices.Some?)] + daq, dk);
    NotedOfKinds(DeviceStages(g, consumed), eD, dk);
  }

  /** The channel part notes only the channel tasks and the reported GPIB ids. */
  lemma ChannelKinds(g: GenerationInputs, n: nat, eC: seq<DriverEvent>)
    ensures EntriesOfKinds(Noted(ChannelStages(g, n), eC),
                           {ChannelKind(GpibRegistry), ChannelKind(RfsgRegistry), ChannelKind(Rs232Registry), MisconfiguredKind})
  {
    var ck := {ChannelKind(GpibRegistry), ChannelKind(RfsgRegistry), ChannelKind(Rs232Registry), MisconfiguredKind};
    var gp := GpibLoopStages(g.gpib, n, g.devs, [], []);
    var rs := Rs232LoopStages(g.rs232, n + GpibTaskCount(g.gpib), g.devs, []);
    GpibLoopKinds(g.gpib, n, g.devs, [], []);
    Rs232LoopKinds(g.rs232, n + GpibTaskCount(g.gpib), g.devs, []);
    assert NotesOfKinds(gp, ck) && NotesOfKinds(rs, ck);
    assert NotesOfKinds(CallAll(ReconcileActions(g.made, g.connections)), ck);
    NotesOfKindsAppend(rs, CallAll(ReconcileActions(g.made, g.connections)), ck);
    NotesOfKindsAppend(gp, rs + CallAll(ReconcileActions(g.made, g.connections)), ck);
    NotedOfKinds(ChannelStages(g, n), eC, ck);
  }

  // ----- One more step of each loop -----

  /** One pass of a loop that registers what its steps note: the registry keeps being the
      start's followed by what the loop noted, and a failing pass ends the whole loop. */
  lemma DaqRegistryStep(prefix: seq<Stage>, step: seq<Stage>, whole: seq<Stage>, e1: seq<DriverEvent>,
                        e2: seq<DriverEvent>, ok: bool, daq0: seq<(string, TaskHandle)>,
                        before: seq<(string, TaskHandle)>, after: seq<(string, TaskHandle)>)
    requires Ran(prefix, e1, true) && Ran(step, e2, ok) && IsPrefix(prefix + step, whole)
    requires before == daq0 + DaqOf(Noted(prefix, e1)) && after == before + DaqOf(Noted(step, e2))
    ensures Ran(prefix + step, e1 + e2, ok) && after == daq0 + DaqOf(Noted(prefix + step, e1 + e2))
    ensures !ok ==> Ran(whole, e1 + e2, false) && after == daq0 + DaqOf(Noted(whole, e1 + e2))
  {
    LoopStep(prefix, step, whole, e1, e2, ok);
    DaqOfAppend(Noted(prefix, e1), Noted(step, e2));
  }

  lemma ChannelRegistryStep(prefix: seq<Stage>, step: seq<Stage>, whole: seq<Stage>, e1: seq<DriverEvent>,
                            e2: seq<DriverEvent>, ok: bool, reg: ChannelRegistry, r0: seq<(HardwareChannel, TaskHandle)>,
                            before: seq<(HardwareChannel, TaskHandle)>, after: seq<(HardwareChannel, TaskHandle)>)
    requires Ran(prefix, e1, true) && Ran(step, e2, ok) && IsPrefix(prefix + step, whole)
    requires before == r0 + ChannelOf(Noted(prefix, e1), reg) && after == before + ChannelOf(Noted(step, e2), reg)
    ensures Ran(prefix + step, e1 + e2, ok) && after == r0 + ChannelOf(Noted(prefix + step, e1 + e2), reg)
    ensures !ok ==> Ran(whole, e1 + e2, false) && after == r0 + ChannelOf(Noted(whole, e1 + e2), reg)
  {
    LoopStep(prefix, step, whole, e1, e2, ok);
    ChannelOfAppend(Noted(prefix, e1), Noted(step, e2), reg);
  }

  lemma MisconfiguredStep(prefix: seq<Stage>, step: seq<Stage>, whole: seq<Stage>, e1: seq<DriverEvent>,
                          e2: seq<DriverEvent>, ok: bool, m0: seq<int>, before: seq<int>, after: seq<int>)
    requires Ran(prefix, e1, true) && Ran(step, e2, ok) && IsPrefix(prefix + step, whole)
    requires before == m0 + MisconfiguredOf(Noted(prefix, e1)) && after == before + MisconfiguredOf(Noted(step, e2))
    ensures after == m0 + MisconfiguredOf(Noted(prefix + step, e1 + e2))
    ensures !ok ==> after == m0 + MisconfiguredOf(Noted(whole, e1 + e2))
  {
    LoopStep(prefix, step, whole, e1, e2, ok);
    MisconfiguredOfAppend(Noted(prefix, e1), Noted(step, e2));
  }

  lemma DaqLoopSnoc(devices: seq<string>, i: nat, n: nat, devs: seq<(string, DeviceSettings)>,
                    digital: seq<(int, HardwareChannel)>, analog: seq<(int, HardwareChannel)>, keys: seq<string>)
    requires i < |devices|
    ensures var done := DaqTaskDevices(devices[..i], devs, digital, analog);
      && DaqLoopStages(devices[..i + 1], n, devs, digital, analog, keys)
         == DaqLoopStages(devices[..i], n, devs, digital, analog, keys)
            + DaqDeviceStages(devices[i], n + |done|, devs, digital, analog, keys + done)
      && DaqTaskDevices(devices[..i + 1], devs, digital, analog)
         == done + (if GetsDaqTask(devs, digital, analog, devices[i]) then [devices[i]] else [])
      && IsPrefix(DaqLoopStages(devices[..i + 1], n, devs, digital, analog, keys),
                  DaqLoopStages(devices, n, devs, digital, analog, keys))
  {
    var w := devices[..i + 1];
    assert w[..|w| - 1] == devices[..i] && w[|w| - 1] == devices[i];
    DaqLoopStagesPrefix(devices, i + 1, n, devs, digital, analog, keys);
  }

  lemma GpibCountSnoc(m: seq<(int, HardwareChannel)>, i: nat)
    requires i < |m|
    ensures GpibTaskCount(m[..i + 1]) == GpibTaskCount(m[..i]) + (if RoleOf(m[i].1) == UnconfiguredMasquerade then 0 else 1)
  {
    var w := m[..i + 1];
    assert w[..|w| - 1] == m[..i] && w[|w| - 1] == m[i];
  }

  lemma GpibStagesSnoc(m: seq<(int, HardwareChannel)>, i: nat, n: nat, devs: seq<(string, DeviceSettings)>,
                       gpibKeys: seq<HardwareChannel>, rfsgKeys: seq<HardwareChannel>)
    requires i < |m|
    ensures GpibLoopStages(m[..i + 1], n, devs, gpibKeys, rfsgKeys)
            == GpibLoopStages(m[..i], n, devs, gpibKeys, rfsgKeys)
               + GpibChannelStages(m[i].0, m[i].1, n + GpibTaskCount(m[..i]), devs,
                                   gpibKeys + ChannelsWithRole(m[..i], PlainGpib),
                                   rfsgKeys + ChannelsWithRole(m[..i], RfsgMasquerade))
  {
    var w := m[..i + 1];
    var init := w[..|w| - 1];
    assert init == m[..i];
    assert w[|w| - 1] == m[i];
  }

  lemma GpibLoopSnoc(m: seq<(int, HardwareChannel)>, i: nat, n: nat, devs: seq<(string, DeviceSettings)>,
                     gpibKeys: seq<HardwareChannel>, rfsgKeys: seq<HardwareChannel>)
    requires i < |m|
    ensures var p, r := ChannelsWithRole(m[..i], PlainGpib), ChannelsWithRole(m[..i], RfsgMasquerade);
      && GpibLoopStages(m[..i + 1], n, devs, gpibKeys, rfsgKeys)
         == GpibLoopStages(m[..i], n, devs, gpibKeys, rfsgKeys)
            + GpibChannelStages(m[i].0, m[i].1, n + GpibTaskCount(m[..i]), devs, gpibKeys + p, rfsgKeys + r)
      && GpibTaskCount(m[..i + 1]) == GpibTaskCount(m[..i]) + (if RoleOf(m[i].1) == UnconfiguredMasquerade then 0 else 1)
      && IsPrefix(GpibLoopStages(m[..i + 1], n, devs, gpibKeys, rfsgKeys), GpibLoopStages(m, n, devs, gpibKeys, rfsgKeys))
  {
    GpibStagesSnoc(m, i, n, devs, gpibKeys, rfsgKeys);
    GpibCountSnoc(m, i);
    GpibLoopStagesPrefix(m, i + 1, n, devs, gpibKeys, rfsgKeys);
  }

  lemma Rs232LoopSnoc(m: seq<(int, HardwareChannel)>, i: nat, n: nat, devs: seq<(string, DeviceSettings)>,
                      keys: seq<HardwareChannel>)
    requires i < |m|
    ensures && Rs232LoopStages(m[..i + 1], n, devs, keys)
               == Rs232LoopStages(m[..i], n, devs, keys) + Rs232ChannelStages(m[i].1, n + i, devs, keys + Values(m[..i]))
            && IsPrefix(Rs232LoopStages(m[..i + 1], n, devs, keys), Rs232LoopStages(m, n, devs, keys))
  {
    var w := m[..i + 1];
    assert w[..|w| - 1] == m[..i] && w[|w| - 1] == m[i];
    Rs232LoopStagesPrefix(m, i + 1, n, devs, keys);
  }

  /** A loop starts with nothing planned, run or noted, and ends with the whole plan. */
  lemma LoopStarts<T>(m: seq<T>)
    ensures m[..0] == [] && m[..|m|] == m
    ensures Ran([], [], true) && Noted([], []) == []
  {
  }
}
