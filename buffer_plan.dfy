/** The value-level decisions of `generateBuffers`: which devices get a DAQ task, how the
    used GPIB channels split into GPIB tasks, RFSG tasks and misconfigured masquerades, and
    under which key the variable timebase device's settings are found. */
module BufferPlan {
  import opened Common
  import opened Hardware
  import opened ChannelResolution

  /** `generateDaqMxTaskOnDevice`'s rule: a task is built for an enabled device that has used channels. */
  predicate WantsDaqTask(ds: DeviceSettings, digital: seq<(int, HardwareChannel)>, analog: seq<(int, HardwareChannel)>,
                         dev: string) {
    ds.deviceEnabled && DeviceHasUsedChannels(digital, analog, dev)
  }

  /** A device for which generation builds a DAQ task: it has settings and the rule selects it. */
  predicate GetsDaqTask(devs: seq<(string, DeviceSettings)>, digital: seq<(int, HardwareChannel)>,
                        analog: seq<(int, HardwareChannel)>, dev: string) {
    Lookup(devs, dev).Some? && WantsDaqTask(Lookup(devs, dev).value, digital, analog, dev)
  }

  /** The devices that end up with a DAQ task, in the order of the used-device list. */
  function DaqTaskDevices(devices: seq<string>, devs: seq<(string, DeviceSettings)>,
                          digital: seq<(int, HardwareChannel)>, analog: seq<(int, HardwareChannel)>): seq<string>
    decreases |devices|
  {
    if devices == [] then []
    else
      var init := DaqTaskDevices(devices[..|devices| - 1], devs, digital, analog);
      var dev := devices[|devices| - 1];
      if GetsDaqTask(devs, digital, analog, dev) then init + [dev] else init
  }

  /** A device gets a task iff it is a used device, it has settings, and the rule selects it;
      a duplicate-free device list gives a duplicate-free task list, so one task per device. */
  lemma {:induction false} DaqTaskDevicesMembers(devices: seq<string>, devs: seq<(string, DeviceSettings)>,
                                                 digital: seq<(int, HardwareChannel)>, analog: seq<(int, HardwareChannel)>)
    ensures forall d :: d in DaqTaskDevices(devices, devs, digital, analog) <==>
      d in devices && GetsDaqTask(devs, digital, analog, d)
    ensures NoDup(devices) ==> NoDup(DaqTaskDevices(devices, devs, digital, analog))
    decreases |devices|
  {
    if devices != [] {
      var init := devices[..|devices| - 1];
      var dev := devices[|devices| - 1];
      DaqTaskDevicesMembers(init, devs, digital, analog);
      assert devices == init + [dev];
      if NoDup(devices) {
        assert NoDup(init) by {
          forall i, j | 0 <= i < j < |init| ensures init[i] != init[j] { assert init[i] == devices[i] && init[j] == devices[j]; }
        }
        assert dev !in init by {
          forall i | 0 <= i < |init| ensures init[i] != dev { assert init[i] == devices[i]; }
        }
      }
    }
  }

  /** What generation does with one used GPIB channel. */
  datatype GpibRole = PlainGpib | RfsgMasquerade | UnconfiguredMasquerade

  function RoleOf(hc: HardwareChannel): GpibRole {
    if !hc.gpibMasquerade then PlainGpib
    else if hc.masqueradeType == MasqueradeRfsg then RfsgMasquerade
    else UnconfiguredMasquerade
  }

  /** The channels of a given role, in enumeration order. */
  function ChannelsWithRole(m: seq<(int, HardwareChannel)>, role: GpibRole): seq<HardwareChannel>
    decreases |m|
  {
    if m == [] then []
    else
      var init := ChannelsWithRole(m[..|m| - 1], role);
      if RoleOf(m[|m| - 1].1) == role then init + [m[|m| - 1].1] else init
  }

  /** The logical ids of the channels of a given role, in enumeration order. */
  function IdsWithRole(m: seq<(int, HardwareChannel)>, role: GpibRole): seq<int>
    decreases |m|
  {
    if m == [] then []
    else
      var init := IdsWithRole(m[..|m| - 1], role);
      if RoleOf(m[|m| - 1].1) == role then init + [m[|m| - 1].0] else init
  }

  /** Every used GPIB channel has exactly one role, so it is planned exactly once: as a GPIB
      task, as an RFSG task, or as a logged configuration error. */
  lemma {:induction false} RolesPartition(m: seq<(int, HardwareChannel)>)
    ensures |ChannelsWithRole(m, PlainGpib)| + |ChannelsWithRole(m, RfsgMasquerade)|
            + |ChannelsWithRole(m, UnconfiguredMasquerade)| == |m|
    ensures forall hc :: hc in ChannelsWithRole(m, PlainGpib) <==> (exists i :: 0 <= i < |m| && m[i].1 == hc) && !hc.gpibMasquerade
    ensures forall hc :: hc in ChannelsWithRole(m, RfsgMasquerade) <==>
      (exists i :: 0 <= i < |m| && m[i].1 == hc) && hc.gpibMasquerade && hc.masqueradeType == MasqueradeRfsg
    decreases |m|
  {
    if m != [] {
      var init := m[..|m| - 1];
      RolesPartition(init);
      forall hc ensures (hc in ChannelsWithRole(m, PlainGpib) <==> (exists i :: 0 <= i < |m| && m[i].1 == hc) && !hc.gpibMasquerade)
                     && (hc in ChannelsWithRole(m, RfsgMasquerade) <==>
                           (exists i :: 0 <= i < |m| && m[i].1 == hc) && hc.gpibMasquerade && hc.masqueradeType == MasqueradeRfsg)
      {
        if exists i :: 0 <= i < |m| && m[i].1 == hc {
          var i :| 0 <= i < |m| && m[i].1 == hc;
          if i < |init| { assert init[i] == m[i]; }
        }
        if exists i :: 0 <= i < |init| && init[i].1 == hc {
          var i :| 0 <= i < |init| && init[i].1 == hc;
          assert m[i] == init[i];
        }
      }
    }
  }

  /** The digital map once the combined timebase generator has taken the channels it consumed. */
  function WithoutIds(m: seq<(int, HardwareChannel)>, ids: set<int>): (r: seq<(int, HardwareChannel)>)
    ensures forall e :: e in r <==> e in m && e.0 !in ids
    decreases |m|
  {
    if m == [] then []
    else
      assert m == m[..|m| - 1] + [m[|m| - 1]];
      var init := WithoutIds(m[..|m| - 1], ids);
      if m[|m| - 1].0 in ids then init else init + [m[|m| - 1]]
  }

  /** The device name `generateBuffers` computes for the shared timebase device, as written:
      the parsed device name lower-cased, then every 'd' replaced by 'D'. */
  function RecapitalisedDeviceName(timebaseChannel: string): string {
    ReplaceChar(Lower(ParseDeviceName(timebaseChannel)), 'd', 'D')
  }

  /** The computed name is the stored one for "Dev<n>" names, whatever the channel part... */
  lemma RecapitalisationKeepsDevNames(digits: string, channel: string)
    requires forall k :: 0 <= k < |digits| ==> '0' <= digits[k] <= '9'
    ensures RecapitalisedDeviceName("Dev" + digits + "/" + channel) == "Dev" + digits
  {
    var name := "Dev" + digits;
    var c := name + "/" + channel;
    assert c[..|name|] == name && c[|name|] == '/';
    assert '/' !in name by {
      forall k | 0 <= k < |name| ensures name[k] != '/' {
        if k >= 3 { assert name[k] == digits[k - 3]; }
      }
    }
    ParsePrefix(c, |name|);
    var lower := Lower(name);
    assert lower == "dev" + digits by {
      forall k | 0 <= k < |name| ensures lower[k] == ("dev" + digits)[k] {
        if k >= 3 { assert name[k] == digits[k - 3]; }
      }
    }
    var back := ReplaceChar(lower, 'd', 'D');
    forall k | 0 <= k < |name| ensures back[k] == name[k] {
      if k >= 3 { assert lower[k] == digits[k - 3] && name[k] == digits[k - 3]; }
    }
  }

  /** ...but not for a device named "cDAQ1Mod1": the settings lookup under the computed
      name then throws and generation fails with Failed_Invalid_Data. */
  lemma RecapitalisationMissesOtherNames(ds: DeviceSettings)
    ensures RecapitalisedDeviceName("cDAQ1Mod1/port0") == "cDaq1moD1"
    ensures RecapitalisedDeviceName("cDAQ1Mod1/port0") != "cDAQ1Mod1"
    ensures Lookup([("cDAQ1Mod1", ds)], RecapitalisedDeviceName("cDAQ1Mod1/port0")).None?
  {
    ParseCdaqName();
    LowerCdaqName();
    ReplaceCdaqName();
    assert "cDaq1moD1"[2] != "cDAQ1Mod1"[2];
    assert Keys([("cDAQ1Mod1", ds)]) == ["cDAQ1Mod1"];
  }

  lemma ReplaceCdaqName()
    ensures ReplaceChar("cdaq1mod1", 'd', 'D') == "cDaq1moD1"
  {
  }

  lemma ParseCdaqName()
    ensures ParseDeviceName("cDAQ1Mod1/port0") == "cDAQ1Mod1"
  {
    var c := "cDAQ1Mod1/port0";
    assert c[..9] == "cDAQ1Mod1" && c[9] == '/';
    ParsePrefix(c, 9);
  }

  lemma LowerCdaqName()
    ensures Lower("cDAQ1Mod1") == "cdaq1mod1"
  {
  }

  lemma {:induction false} ParsePrefix(s: string, n: nat)
    requires n < |s| && s[n] == '/' && '/' !in s[..n]
    ensures ParseDeviceName(s) == s[..n]
    decreases n
  {
    if n > 0 {
      assert s[0] in s[..n];
      assert s[1..][n - 1] == s[n];
      assert s[1..][..n - 1] == s[..n][1..];
      assert forall c :: c in s[..n][1..] ==> c in s[..n];
      ParsePrefix(s[1..], n - 1);
      assert s[..n] == [s[0]] + s[1..][..n - 1];
    }
  }

  /** Corrected: the key of the device settings whose name is the timebase channel's device
      name, compared case-insensitively as everywhere else in generation. */
  function TimebaseDeviceKey(devs: seq<(string, DeviceSettings)>, timebaseChannel: string): (r: Option<string>)
    ensures r.Some? ==> r.value in Keys(devs) && Upper(r.value) == Upper(ParseDeviceName(timebaseChannel))
    ensures r.None? ==> forall i :: 0 <= i < |devs| ==> Upper(devs[i].0) != Upper(ParseDeviceName(timebaseChannel))
    decreases |devs|
  {
    if devs == [] then None
    else if Upper(devs[0].0) == Upper(ParseDeviceName(timebaseChannel)) then Some(devs[0].0)
    else
      assert forall i :: 0 < i < |devs| ==> devs[i] == devs[1..][i - 1];
      assert Keys(devs) == [devs[0].0] + Keys(devs[1..]);
      TimebaseDeviceKey(devs[1..], timebaseChannel)
  }

  /** The corrected key finds the settings of a device stored under its own name, however
      that name mixes cases ("cDAQ1Mod1" included), which the as-written name may miss. */
  lemma {:induction false} TimebaseDeviceKeyFindsStoredName(devs: seq<(string, DeviceSettings)>, name: string,
                                                            channel: string)
    requires name in Keys(devs) && '/' !in name
    ensures TimebaseDeviceKey(devs, name + "/" + channel).Some?
    ensures Upper(TimebaseDeviceKey(devs, name + "/" + channel).value) == Upper(name)
  {
    var c := name + "/" + channel;
    assert c[..|name|] == name && c[|name|] == '/';
    ParsePrefix(c, |name|);
    var i :| 0 <= i < |devs| && Keys(devs)[i] == name;
    assert Upper(devs[i].0) == Upper(ParseDeviceName(c));
  }

  /** Upper-casing forgets the recapitalisation: the as-written name and the parsed one
      agree case-insensitively. */
  lemma UpperOfRecapitalised(p: string)
    ensures Upper(ReplaceChar(Lower(p), 'd', 'D')) == Upper(p)
  {
    var r := ReplaceChar(Lower(p), 'd', 'D');
    forall k | 0 <= k < |p| ensures Upper(r)[k] == Upper(p)[k] {
      assert r[k] == if LowerChar(p[k]) == 'd' then 'D' else LowerChar(p[k]);
    }
  }

  /** Every timebase device the as-written lookup finds, the corrected search finds as well. */
  lemma {:induction false} CorrectedKeyCoversAsWritten(devs: seq<(string, DeviceSettings)>, timebaseChannel: string)
    requires Lookup(devs, RecapitalisedDeviceName(timebaseChannel)).Some?
    ensures TimebaseDeviceKey(devs, timebaseChannel).Some?
  {
    var key := RecapitalisedDeviceName(timebaseChannel);
    UpperOfRecapitalised(ParseDeviceName(timebaseChannel));
    var i :| 0 <= i < |devs| && Keys(devs)[i] == key;
    assert Upper(devs[i].0) == Upper(ParseDeviceName(timebaseChannel));
  }
}
