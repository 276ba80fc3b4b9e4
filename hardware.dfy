/** The value types the run orchestration reads: hardware and logical channels, the
    settings documents, per-device settings, terminal pairs and the buffer-generation
    status codes. All of them are immutable values; equality is structural. */
module Hardware {
  import opened Common

  datatype ChannelType = Analog | Digital | Gpib | RS232

  /** What a GPIB-addressed channel really is, when its masquerade bit is set. */
  datatype GpibMasqueradeType = MasqueradeNone | MasqueradeRfsg

  /** A channel of this server's hardware inventory (or a binding to one). */
  datatype HardwareChannel = HardwareChannel(
    serverName: string,
    deviceName: string,
    channelName: string,
    channelType: ChannelType,
    isUnAssigned: bool,
    gpibAddress: int,
    gpibMasquerade: bool,
    masqueradeType: GpibMasqueradeType)

  /** "Dev1/port0/line3" style name: the device name, a slash, the channel name. */
  function PhysicalChannelName(hc: HardwareChannel): string {
    hc.deviceName + "/" + hc.channelName
  }

  /** The device part of a physical channel string: everything before the first '/'. */
  function ParseDeviceName(physical: string): (d: string)
    ensures |d| <= |physical| && d == physical[..|d|]
    ensures '/' !in d
    ensures |d| < |physical| ==> physical[|d|] == '/'
    decreases |physical|
  {
    if |physical| == 0 || physical[0] == '/' then ""
    else [physical[0]] + ParseDeviceName(physical[1..])
  }

  lemma {:induction false} ParsePhysicalName(hc: HardwareChannel)
    requires '/' !in hc.deviceName
    ensures ParseDeviceName(PhysicalChannelName(hc)) == hc.deviceName
    decreases |hc.deviceName|
  {
    var p := PhysicalChannelName(hc);
    if hc.deviceName == [] {
      assert p[0] == '/';
    } else {
      var rest := hc.(deviceName := hc.deviceName[1..]);
      assert p[1..] == PhysicalChannelName(rest);
      assert hc.deviceName[0] in hc.deviceName;
      ParsePhysicalName(rest);
      assert hc.deviceName == [hc.deviceName[0]] + rest.deviceName;
    }
  }

  /** A channel of the sequence, with the hardware channel it is bound to (null: none). */
  datatype LogicalChannel = LogicalChannel(name: string, hardwareChannel: Option<HardwareChannel>)

  /** One channel category of the settings: logical id to logical channel, in enumeration order. */
  type ChannelCollection = seq<(int, LogicalChannel)>

  datatype SettingsData = SettingsData(
    analog: ChannelCollection,
    digital: ChannelCollection,
    gpib: ChannelCollection,
    rs232: ChannelCollection)

  /** The part of a sequence that the orchestration reads. */
  datatype SequenceData = SequenceData(waitForReady: bool)

  datatype TriggerType = TriggerIn | SoftwareTrigger

  datatype SampleClockSource = InternalClock | ExternalClock

  datatype DeviceSettings = DeviceSettings(
    deviceEnabled: bool,
    startTriggerType: TriggerType,
    sampleClockSource: SampleClockSource,
    softTriggerLast: bool)

  /** A directed routing connection between two device terminals. */
  datatype TerminalPair = TerminalPair(sourceTerminal: string, destinationTerminal: string)

  datatype SoftwareTaskTriggerType = SampleClockEvent | PollBufferPosition

  /** The server's own configuration. A null or empty string setting is `None` or `Some("")`. */
  datatype ServerSettings = ServerSettings(
    serverName: string,
    devicesSettings: seq<(string, DeviceSettings)>,
    connections: seq<TerminalPair>,
    variableTimebaseOutputChannel: Option<string>,
    deviceToSyncSoftwareTimedTasksTo: Option<string>,
    softwareTaskTriggerMethod: SoftwareTaskTriggerType,
    readyInput: Option<string>,
    readyTimeout: int,
    readyTimeoutRunAnyway: bool,
    triggerOutputChannel: Option<string>)

  /** A string setting that is neither null nor "". */
  predicate Configured(s: Option<string>) {
    s.Some? && s.value != ""
  }

  datatype BufferGenerationStatus =
    | Success
    | Failed_Buffer_Underrun
    | Failed_Settings_Null
    | Failed_Sequence_Null
    | Failed_Invalid_Data
}
