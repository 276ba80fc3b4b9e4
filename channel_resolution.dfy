/** Channel resolution: which logical channels of the settings are bound to hardware
    channels of this server, and which DAQ devices those bindings touch. */
module ChannelResolution {
  import opened Common
  import opened Hardware

  /** A binding that resolution looks at: present, assigned, and naming this server. */
  predicate BoundHere(lc: LogicalChannel, serverName: string) {
    && lc.hardwareChannel.Some?
    && !lc.hardwareChannel.value.isUnAssigned
    && lc.hardwareChannel.value.serverName == serverName
  }

  /** A binding to this server that is in the server's inventory: it goes into the channel map. */
  predicate Accepted(lc: LogicalChannel, serverName: string, inventory: seq<HardwareChannel>) {
    BoundHere(lc, serverName) && lc.hardwareChannel.value in inventory
  }

  /** A binding to this server that is missing from the inventory: resolution stops at it. */
  predicate Offends(lc: LogicalChannel, serverName: string, inventory: seq<HardwareChannel>) {
    BoundHere(lc, serverName) && lc.hardwareChannel.value !in inventory
  }

  /** The channel-map entries a collection yields, in enumeration order. */
  function Selected(cs: ChannelCollection, serverName: string, inventory: seq<HardwareChannel>)
    : seq<(int, HardwareChannel)>
    decreases |cs|
  {
    if cs == [] then []
    else
      var init := Selected(cs[..|cs| - 1], serverName, inventory);
      var (id, lc) := cs[|cs| - 1];
      if Accepted(lc, serverName, inventory) then init + [(id, lc.hardwareChannel.value)] else init
  }

  /** An entry is in the map iff some logical channel with that id has an accepted binding to that channel. */
  lemma {:induction false} SelectedMembers(cs: ChannelCollection, serverName: string, inventory: seq<HardwareChannel>)
    ensures forall id, hc :: (id, hc) in Selected(cs, serverName, inventory) <==>
      exists i :: 0 <= i < |cs| && cs[i].0 == id && Accepted(cs[i].1, serverName, inventory)
                  && cs[i].1.hardwareChannel.value == hc
    decreases |cs|
  {
    if cs != [] {
      var init := cs[..|cs| - 1];
      SelectedMembers(init, serverName, inventory);
      forall id, hc | (exists i :: 0 <= i < |cs| && cs[i].0 == id && Accepted(cs[i].1, serverName, inventory)
                                    && cs[i].1.hardwareChannel.value == hc)
        ensures (id, hc) in Selected(cs, serverName, inventory)
      {
        var i :| 0 <= i < |cs| && cs[i].0 == id && Accepted(cs[i].1, serverName, inventory)
                 && cs[i].1.hardwareChannel.value == hc;
        if i < |cs| - 1 {
          assert init[i] == cs[i];
        }
      }
      forall id, hc | (id, hc) in Selected(cs, serverName, inventory)
        ensures exists i :: 0 <= i < |cs| && cs[i].0 == id && Accepted(cs[i].1, serverName, inventory)
                            && cs[i].1.hardwareChannel.value == hc
      {
        if (id, hc) in Selected(init, serverName, inventory) {
          var i :| 0 <= i < |init| && init[i].0 == id && Accepted(init[i].1, serverName, inventory)
                   && init[i].1.hardwareChannel.value == hc;
          assert cs[i] == init[i];
        } else {
          assert cs[|cs| - 1].0 == id;
        }
      }
    }
  }

  /** The index of the first logical channel that offends, if any. */
  function FirstOffender(cs: ChannelCollection, serverName: string, inventory: seq<HardwareChannel>): (k: Option<nat>)
    ensures k.None? <==> forall i :: 0 <= i < |cs| ==> !Offends(cs[i].1, serverName, inventory)
    ensures k.Some? ==> k.value < |cs| && Offends(cs[k.value].1, serverName, inventory)
    ensures k.Some? ==> forall j :: 0 <= j < k.value ==> !Offends(cs[j].1, serverName, inventory)
    decreases |cs|
  {
    if cs == [] then None
    else if Offends(cs[0].1, serverName, inventory) then Some(0)
    else
      assert forall i :: 0 < i < |cs| ==> cs[i] == cs[1..][i - 1];
      match FirstOffender(cs[1..], serverName, inventory)
      case None => None
      case Some(k) => Some(k + 1)
  }

  /** How much of the collection resolution walks: all of it, or up to the first offender. */
  function ResolvedPrefix(cs: ChannelCollection, serverName: string, inventory: seq<HardwareChannel>): (n: nat)
    ensures n <= |cs|
  {
    var k := FirstOffender(cs, serverName, inventory);
    if k.Some? then k.value else |cs|
  }

  /** The channel map that resolving a collection leaves behind. */
  function Resolved(cs: ChannelCollection, serverName: string, inventory: seq<HardwareChannel>)
    : seq<(int, HardwareChannel)>
  {
    Selected(cs[..ResolvedPrefix(cs, serverName, inventory)], serverName, inventory)
  }

  /** `findChannels`: walks the collection, adding every accepted binding to the map and
      returning the first logical channel that offends; entries found before it are kept. */
  method FindChannels(collection: ChannelCollection, serverName: string, inventory: seq<HardwareChannel>)
    returns (offender: Option<LogicalChannel>, found: seq<(int, HardwareChannel)>)
    ensures offender.None? <==> FirstOffender(collection, serverName, inventory).None?
    ensures offender.Some? ==> offender.value == collection[FirstOffender(collection, serverName, inventory).value].1
    ensures found == Resolved(collection, serverName, inventory)
  {
    found := [];
    var i := 0;
    while i < |collection|
      invariant 0 <= i <= |collection|
      invariant forall j :: 0 <= j < i ==> !Offends(collection[j].1, serverName, inventory)
      invariant found == Selected(collection[..i], serverName, inventory)
    {
      var (id, logical) := collection[i];
      assert collection[..i + 1][..i] == collection[..i];
      if logical.hardwareChannel.Some? {
        if !logical.hardwareChannel.value.isUnAssigned {
          if logical.hardwareChannel.value.serverName == serverName {
            if logical.hardwareChannel.value in inventory {
              found := found + [(id, logical.hardwareChannel.value)];
            } else {
              offender := Some(logical);
              return;
            }
          }
        }
      }
      i := i + 1;
    }
    assert collection[..i] == collection;
    offender := None;
  }

  /** The category at which `findMyChannels` throws: the first, in the order analog, digital,
      GPIB, RS232, that has an offending binding. */
  function FailingCategory(s: SettingsData, serverName: string, inventory: seq<HardwareChannel>): Option<ChannelType> {
    if FirstOffender(s.analog, serverName, inventory).Some? then Some(Analog)
    else if FirstOffender(s.digital, serverName, inventory).Some? then Some(Digital)
    else if FirstOffender(s.gpib, serverName, inventory).Some? then Some(Gpib)
    else if FirstOffender(s.rs232, serverName, inventory).Some? then Some(RS232)
    else None
  }

  /** The set of device names of a channel map. */
  ghost function DeviceNames(m: seq<(int, HardwareChannel)>): set<string> {
    set i | 0 <= i < |m| :: m[i].1.deviceName
  }

  /** The device names of a channel map, in enumeration order. */
  function DeviceNameList(m: seq<(int, HardwareChannel)>): (r: seq<string>)
    ensures |r| == |m| && forall i :: 0 <= i < |m| ==> r[i] == m[i].1.deviceName
  {
    seq(|m|, i requires 0 <= i < |m| => m[i].1.deviceName)
  }

  /** `s` with every element kept at its first occurrence only. */
  function FirstOccurrences(s: seq<string>): seq<string>
    decreases |s|
  {
    if s == [] then []
    else
      var init := FirstOccurrences(s[..|s| - 1]);
      if s[|s| - 1] in init then init else init + [s[|s| - 1]]
  }

  /** `FirstOccurrences` keeps every element of `s` exactly once, ordered by first
      occurrence: an element listed before another occurs in `s` before the other's first
      occurrence. */
  lemma {:induction false} FirstOccurrencesOrder(s: seq<string>)
    ensures forall x :: x in FirstOccurrences(s) <==> x in s
    ensures NoDup(FirstOccurrences(s))
    ensures forall i, j :: 0 <= i < j < |FirstOccurrences(s)| ==>
      exists a :: 0 <= a < |s| && s[a] == FirstOccurrences(s)[i] && FirstOccurrences(s)[j] !in s[..a + 1]
    decreases |s|
  {
    if s != [] {
      var init := s[..|s| - 1];
      var x := s[|s| - 1];
      FirstOccurrencesOrder(init);
      var d := FirstOccurrences(init);
      var r := FirstOccurrences(s);
      assert s == init + [x];
      forall a | 0 <= a < |init| ensures s[..a + 1] == init[..a + 1] && s[a] == init[a] { }
      if x !in d {
        assert r == d + [x];
        forall i, j | 0 <= i < j < |r|
          ensures exists a :: 0 <= a < |s| && s[a] == r[i] && r[j] !in s[..a + 1]
        {
          if j < |d| {
            var a :| 0 <= a < |init| && init[a] == d[i] && d[j] !in init[..a + 1];
            assert s[a] == r[i] && s[..a + 1] == init[..a + 1];
          } else {
            assert r[i] in init;
            var a :| 0 <= a < |init| && init[a] == r[i];
            assert s[..a + 1] == init[..a + 1];
            assert forall y :: y in init[..a + 1] ==> y in init;
          }
        }
      } else {
        forall i, j | 0 <= i < j < |r|
          ensures exists a :: 0 <= a < |s| && s[a] == r[i] && r[j] !in s[..a + 1]
        {
          var a :| 0 <= a < |init| && init[a] == d[i] && d[j] !in init[..a + 1];
          assert s[a] == r[i] && s[..a + 1] == init[..a + 1];
        }
      }
    }
  }

  /** `FirstOccurrences` of `s` extended by one element. */
  lemma FirstOccurrencesSnoc(s: seq<string>, x: string)
    ensures FirstOccurrences(s + [x]) ==
      if x in FirstOccurrences(s) then FirstOccurrences(s) else FirstOccurrences(s) + [x]
  {
    assert (s + [x])[..|s + [x]| - 1] == s;
  }

  /** `DeviceNameList` of a prefix of `m` extended by one entry. */
  lemma DeviceNameListSnoc(m: seq<(int, HardwareChannel)>, i: nat)
    requires i < |m|
    ensures DeviceNameList(m[..i + 1]) == DeviceNameList(m[..i]) + [m[i].1.deviceName]
  {
  }

  /** The names listed for two channel maps are exactly the device names of either map. */
  lemma NameListMembers(analog: seq<(int, HardwareChannel)>, digital: seq<(int, HardwareChannel)>)
    ensures forall d :: d in DeviceNameList(analog) + DeviceNameList(digital) <==>
      d in DeviceNames(analog) + DeviceNames(digital)
  {
    var names := DeviceNameList(analog) + DeviceNameList(digital);
    forall d ensures d in names <==> d in DeviceNames(analog) + DeviceNames(digital) {
      if d in names {
        var k :| 0 <= k < |names| && names[k] == d;
        if k >= |analog| { assert digital[k - |analog|].1.deviceName == d; }
      }
      if d in DeviceNames(digital) {
        var k :| 0 <= k < |digital| && digital[k].1.deviceName == d;
        assert names[|analog| + k] == d;
      }
    }
  }

  /** The `usedDaqMxDevices` list: device names of the analog map, then of the digital map,
      each added once, the first time it is met. */
  method CollectDevices(analog: seq<(int, HardwareChannel)>, digital: seq<(int, HardwareChannel)>)
    returns (devices: seq<string>)
    ensures devices == FirstOccurrences(DeviceNameList(analog) + DeviceNameList(digital))
    ensures NoDup(devices)
    ensures forall d :: d in devices <==> d in DeviceNames(analog) + DeviceNames(digital)
  {
    devices := [];
    var i := 0;
    while i < |analog|
      invariant 0 <= i <= |analog|
      invariant devices == FirstOccurrences(DeviceNameList(analog[..i]))
    {
      var name := analog[i].1.deviceName;
      DeviceNameListSnoc(analog, i);
      FirstOccurrencesSnoc(DeviceNameList(analog[..i]), name);
      if name !in devices {
        devices := devices + [name];
      }
      i := i + 1;
    }
    assert analog[..i] == analog;
    ghost var head := DeviceNameList(analog);
    i := 0;
    assert head + DeviceNameList(digital[..i]) == head;
    while i < |digital|
      invariant 0 <= i <= |digital|
      invariant devices == FirstOccurrences(head + DeviceNameList(digital[..i]))
    {
      var name := digital[i].1.deviceName;
      DeviceNameListSnoc(digital, i);
      assert head + DeviceNameList(digital[..i + 1]) == (head + DeviceNameList(digital[..i])) + [name];
      FirstOccurrencesSnoc(head + DeviceNameList(digital[..i]), name);
      if name !in devices {
        devices := devices + [name];
      }
      i := i + 1;
    }
    assert digital[..i] == digital;
    ghost var names := head + DeviceNameList(digital);
    FirstOccurrencesOrder(names);
    NameListMembers(analog, digital);
  }

  /** `deviceHasUsedChannels`: some used digital or analog channel sits on `dev`,
      comparing device names case-insensitively. */
  function DeviceHasUsedChannels(digital: seq<(int, HardwareChannel)>, analog: seq<(int, HardwareChannel)>, dev: string)
    : (r: bool)
    ensures r <==> ((exists i :: 0 <= i < |digital| && Upper(digital[i].1.deviceName) == Upper(dev))
                 || (exists i :: 0 <= i < |analog| && Upper(analog[i].1.deviceName) == Upper(dev)))
  {
    OnDevice(digital, dev) || OnDevice(analog, dev)
  }

  function OnDevice(m: seq<(int, HardwareChannel)>, dev: string): (r: bool)
    ensures r <==> exists i :: 0 <= i < |m| && Upper(m[i].1.deviceName) == Upper(dev)
    decreases |m|
  {
    if m == [] then false
    else Upper(m[0].1.deviceName) == Upper(dev) || (assert forall i :: 0 < i < |m| ==> m[i] == m[1..][i - 1]; OnDevice(m[1..], dev))
  }

  /** The variable-timebase scan over the used digital channels: does one of them have the
      timebase channel as its upper-cased physical name, and, if none does, does one share
      the timebase channel's device. */
  predicate TimebaseCollides(digital: seq<(int, HardwareChannel)>, timebase: string) {
    exists i :: 0 <= i < |digital| && Upper(PhysicalChannelName(digital[i].1)) == timebase
  }

  predicate SharesTimebaseDevice(digital: seq<(int, HardwareChannel)>, timebase: string) {
    exists i :: 0 <= i < |digital| && Upper(digital[i].1.deviceName) == Upper(ParseDeviceName(timebase))
  }

  method ScanTimebaseChannel(digital: seq<(int, HardwareChannel)>, timebase: string)
    returns (collides: bool, sharesDevice: bool)
    ensures collides <==> TimebaseCollides(digital, timebase)
    ensures !collides ==> (sharesDevice <==> SharesTimebaseDevice(digital, timebase))
  {
    sharesDevice := false;
    var i := 0;
    while i < |digital|
      invariant 0 <= i <= |digital|
      invariant forall j :: 0 <= j < i ==> Upper(PhysicalChannelName(digital[j].1)) != timebase
      invariant sharesDevice <==> exists j :: 0 <= j < i && Upper(digital[j].1.deviceName) == Upper(ParseDeviceName(timebase))
    {
      var hc := digital[i].1;
      if Upper(PhysicalChannelName(hc)) == timebase {
        collides := true;
        return;
      }
      if Upper(hc.deviceName) == Upper(ParseDeviceName(timebase)) {
        sharesDevice := true;
      }
      i := i + 1;
    }
    collides := false;
  }
}
