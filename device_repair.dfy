/**
 * fixDeviceSettings and fixSettings: the identity repair run once at startup.
 * The files and host-name services it consults are passed in as a HostInfo.
 */
module DeviceRepair {
  import opened Wrappers
  import opened Tools
  import opened SettingsModel

  const DefaultGroup := "penistats"
  const RaspberryManufacturer := "Raspberry Pi Foundation"

  /** What fixDeviceSettings reads from the host. */
  datatype HostInfo = HostInfo(
    cpuinfo: seq<string>,         // the lines of /proc/cpuinfo; a file that cannot be opened has none
    procVersion: Option<string>,  // the text of /proc/version; None when it cannot be read
    nodename: string,             // os.uname().nodename
    hostname: string,             // socket.gethostname()
    hostByAddr: Option<string>)   // socket.gethostbyaddr(hostname)[0]; None when the lookup raises

  /** The group as the repair leaves it (penistats.py:313-316). */
  function RepairGroup(group: Option<string>): (r: string)
    ensures r != [] && AllAlnum(r)
    ensures r == if group.None? || FilterAlnum(group.value) == [] then DefaultGroup else FilterAlnum(group.value)
  {
    var filtered := if !IsStringEmpty(group) then Some(FilterAlnum(group.value)) else group;
    DefaultGroupIsAlnum();
    AlnumBlankIsEmpty(FilterAlnum(group.GetOr([])));
    if IsStringEmpty(filtered) then DefaultGroup else filtered.value
  }

  lemma DefaultGroupIsAlnum()
    ensures DefaultGroup != [] && AllAlnum(DefaultGroup)
  {
  }

  lemma AlnumBlankIsEmpty(s: string)
    ensures AllAlnum(s) ==> (Blank(Some(s)) <==> s == [])
  {
    if s != [] && AllAlnum(s) {
      assert IsAlnum(s[0]) && !IsSpace(s[0]);
    }
  }

  /** serial and model while /proc/cpuinfo is scanned. */
  datatype CpuFields = CpuFields(serial: Option<string>, model: Option<string>)

  /** Whether a cpuinfo line is about `key`: its lower-cased, stripped text starts with it. */
  predicate Matches(raw: string, key: string) {
    StartsWith(Lower(Strip(raw)), key)
  }

  /** line[line.index(':')+1:].strip(), None where index raises. */
  function ValueAfterColon(line: string): (r: Option<string>)
    ensures r.None? <==> ':' !in line
  {
    match IndexOf(line, ':')
    case None => None
    case Some(k) => Some(Strip(line[k + 1..]))
  }

  /** The value of a line is the stripped text after its first ':'. */
  lemma ValueFollowsFirstColon(line: string)
    requires ':' in line
    ensures exists k | 0 <= k < |line| ::
              line[k] == ':' && ':' !in line[..k] && ValueAfterColon(line) == Some(Strip(line[k + 1..]))
  {
    var k := IndexOf(line, ':').value;
    assert line[k] == ':' && ':' !in line[..k];
  }

  /** What the cpuinfo loop needs to know of one line. */
  datatype CpuLine = CpuLine(
    aboutSerial: bool,     // line.lower().startswith('serial'), on the stripped line
    aboutModel: bool,      // line.lower().startswith('model')
    value: Option<string>) // the stripped text after the first ':', None when there is no ':'

  /** The facts about one raw line; no line is about both keys. */
  function ClassifyCpuLine(raw: string): (c: CpuLine)
    ensures !(c.aboutSerial && c.aboutModel)
  {
    SerialModelExclusive(Lower(Strip(raw)));
    CpuLine(Matches(raw, "serial"), Matches(raw, "model"), ValueAfterColon(Strip(raw)))
  }

  /** The facts about each line of the file, in order. */
  function ClassifyCpuLines(lines: seq<string>): (r: seq<CpuLine>)
    ensures |r| == |lines|
  {
    seq(|lines|, i requires 0 <= i < |lines| => ClassifyCpuLine(lines[i]))
  }

  /** What reading one cpuinfo line does: the fields after it, and whether the loop goes on. */
  datatype CpuStepResult = Continue(fields: CpuFields) | Stop(fields: CpuFields)

  /** The body of the cpuinfo for-loop (penistats.py:324-329) for one line; line.index(':') raises when there is no ':'. */
  function CpuStep(lookSerial: bool, lookModel: bool, f: CpuFields, c: CpuLine): CpuStepResult {
    var serialHit := lookSerial && c.aboutSerial;
    var modelHit := lookModel && c.aboutModel;
    if serialHit && c.value.None? then Stop(f)
    else
      var f1 := if serialHit then f.(serial := c.value) else f;
      if modelHit && c.value.None? then Stop(f1)
      else Continue(if modelHit then f1.(model := c.value) else f1)
  }

  /** The cpuinfo for-loop of fixDeviceSettings (penistats.py:320-331) over lines with facts `cs`, from fields `f`. */
  function ScanCpuinfo(lookSerial: bool, lookModel: bool, f: CpuFields, cs: seq<CpuLine>): CpuFields
    decreases cs
  {
    if cs == [] then f
    else
      match CpuStep(lookSerial, lookModel, f, cs[0])
      case Stop(f1) => f1
      case Continue(f1) => ScanCpuinfo(lookSerial, lookModel, f1, cs[1..])
  }

  /** A line whose line.index(':') raises: it is about a sought key and has no colon. The except ends the scan there. */
  predicate CpuLineStops(c: CpuLine, lookSerial: bool, lookModel: bool) {
    ((lookSerial && c.aboutSerial) || (lookModel && c.aboutModel)) && c.value.None?
  }

  /** The number of lines the scan reads in full: those before the first line that raises. */
  function CpuStopIndex(cs: seq<CpuLine>, lookSerial: bool, lookModel: bool): (n: nat)
    ensures n <= |cs|
    ensures forall i | 0 <= i < n :: !CpuLineStops(cs[i], lookSerial, lookModel)
    ensures n < |cs| ==> CpuLineStops(cs[n], lookSerial, lookModel)
  {
    if cs == [] then 0
    else if CpuLineStops(cs[0], lookSerial, lookModel) then 0
    else 1 + CpuStopIndex(cs[1..], lookSerial, lookModel)
  }

  /** The key a cpuinfo line may be about. */
  datatype CpuKey = SerialKey | ModelKey

  predicate About(c: CpuLine, k: CpuKey) {
    if k == SerialKey then c.aboutSerial else c.aboutModel
  }

  /** The value of the last line of `cs` about `k`, None when there is none. */
  function LastValue(cs: seq<CpuLine>, k: CpuKey): Option<string> {
    if cs == [] then None
    else
      match LastValue(cs[1..], k)
      case Some(v) => Some(v)
      case None => if About(cs[0], k) then cs[0].value else None
  }

  lemma SerialModelExclusive(s: string)
    ensures !(StartsWith(s, "serial") && StartsWith(s, "model"))
  {
    if StartsWith(s, "serial") {
      assert s[0] == s[..6][0] == 's';
    }
    if StartsWith(s, "model") {
      assert s[0] == s[..5][0] == 'm';
    }
  }

  /**
   * The scan writes serial (model) only when it is sought; the value kept is
   * that of the LAST line about it among the lines read before the first line
   * that raises; with no such line the field keeps its value.
   */
  lemma {:induction false} CpuinfoLastMatchWins(lookSerial: bool, lookModel: bool, f: CpuFields, cs: seq<CpuLine>)
    ensures var r := ScanCpuinfo(lookSerial, lookModel, f, cs);
            var seen := cs[..CpuStopIndex(cs, lookSerial, lookModel)];
            r.serial == (if lookSerial && LastValue(seen, SerialKey).Some? then LastValue(seen, SerialKey) else f.serial) &&
            r.model == (if lookModel && LastValue(seen, ModelKey).Some? then LastValue(seen, ModelKey) else f.model)
    decreases cs
  {
    if cs != [] && !CpuLineStops(cs[0], lookSerial, lookModel) {
      var f2 := CpuStep(lookSerial, lookModel, f, cs[0]).fields;
      CpuinfoLastMatchWins(lookSerial, lookModel, f2, cs[1..]);
      var n := CpuStopIndex(cs[1..], lookSerial, lookModel);
      var seen := cs[..n + 1];
      assert seen[0] == cs[0] && seen[1..] == cs[1..][..n];
    }
  }

  /** The steps of fixDeviceSettings before the name (penistats.py:313-338). */
  function RepairBeforeName(d: Device, host: HostInfo): Device {
    var group := RepairGroup(d.group);
    var lookSerial, lookModel := IsStringEmpty(d.serial), IsStringEmpty(d.model);
    var cpu := if lookSerial || lookModel then ScanCpuinfo(lookSerial, lookModel, CpuFields(d.serial, d.model), ClassifyCpuLines(host.cpuinfo))
               else CpuFields(d.serial, d.model);
    var version := if IsStringEmpty(d.version) && host.procVersion.Some? then host.procVersion else d.version;
    d.(group := Some(group), serial := cpu.serial, model := cpu.model, version := version)
  }

  /** The name step (penistats.py:340-346); None when gethostbyaddr raises, which fixDeviceSettings does not catch. */
  function ResolveName(name: Option<string>, host: HostInfo): (r: Option<Option<string>>)
    ensures r.None? <==> Blank(name) && Blank(Some(host.nodename)) && '.' !in host.hostname && host.hostByAddr.None?
    ensures !Blank(name) ==> r == Some(name)
    ensures Blank(name) && !Blank(Some(host.nodename)) ==> r == Some(Some(host.nodename))
    ensures Blank(name) && Blank(Some(host.nodename)) && '.' in host.hostname ==> r == Some(Some(host.hostname))
    ensures Blank(name) && Blank(Some(host.nodename)) && '.' !in host.hostname && host.hostByAddr.Some? ==>
              r == Some(host.hostByAddr)
  {
    if !IsStringEmpty(name) then Some(name)
    else if !IsStringEmpty(Some(host.nodename)) then Some(Some(host.nodename))
    else if '.' in host.hostname then Some(Some(host.hostname))
    else
      match host.hostByAddr
      case Some(fqdn) => Some(Some(fqdn))
      case None => None
  }

  /** The steps after the name (penistats.py:348-355). */
  function RepairAfterName(d: Device): Device {
    var serial := if d.serial.Some? then Some(FilterAlnum(d.serial.value)) else None;
    var manufacturer := if IsStringEmpty(d.manufacturer) && d.model.Some? && Contains(Lower(d.model.value), "raspberry")
                        then Some(RaspberryManufacturer) else d.manufacturer;
    var version := if d.version.Some? then Some(Strip(d.version.value)) else None;
    d.(serial := serial, manufacturer := manufacturer, version := version)
  }

  /** fixDeviceSettings on a device value: the repaired device, or None when the host lookup raises. */
  function FixDevice(d: Device, host: HostInfo): (r: Option<Device>)
    ensures r.None? <==> Blank(d.name) && Blank(Some(host.nodename)) && '.' !in host.hostname && host.hostByAddr.None?
    ensures r.Some? ==> r.value.group.Some? && r.value.group.value != [] && AllAlnum(r.value.group.value)
    ensures r.Some? ==> r.value.group == Some(if d.group.None? || FilterAlnum(d.group.value) == [] then DefaultGroup
                                              else FilterAlnum(d.group.value))
    ensures r.Some? && r.value.serial.Some? ==> AllAlnum(r.value.serial.value)
    ensures r.Some? && !Blank(d.serial) ==> r.value.serial == Some(FilterAlnum(d.serial.value))
    ensures r.Some? && !Blank(d.model) ==> r.value.model == d.model
    ensures r.Some? ==>
      var model := r.value.model;
      r.value.manufacturer == if Blank(d.manufacturer) && model.Some? && Contains(Lower(model.value), "raspberry")
                              then Some(RaspberryManufacturer) else d.manufacturer
    ensures r.Some? ==>
      var read := if Blank(d.version) && host.procVersion.Some? then host.procVersion else d.version;
      r.value.version == if read.Some? then Some(Strip(read.value)) else None
    ensures r.Some? && !Blank(d.name) ==> r.value.name == d.name
    ensures r.Some? ==> ResolveName(d.name, host) == Some(r.value.name)
  {
    var before := RepairBeforeName(d, host);
    CpuinfoLastMatchWins(Blank(d.serial), Blank(d.model), CpuFields(d.serial, d.model), ClassifyCpuLines(host.cpuinfo));
    match ResolveName(before.name, host)
    case None => None
    case Some(name) => Some(RepairAfterName(before.(name := name)))
  }

  /**
   * serial and model after the repair, in terms of the cpuinfo lines: a field
   * blank in the configuration takes the value of the last line about it read
   * before the scan ended; serial is then reduced to letters and digits.
   */
  lemma CpuinfoFillsBlankFields(d: Device, host: HostInfo)
    requires FixDevice(d, host).Some?
    ensures var r := FixDevice(d, host).value;
            var cs := ClassifyCpuLines(host.cpuinfo);
            var seen := cs[..CpuStopIndex(cs, Blank(d.serial), Blank(d.model))];
            var serial := LastValue(seen, SerialKey);
            var model := LastValue(seen, ModelKey);
            (Blank(d.serial) ==> r.serial == if serial.Some? then Some(FilterAlnum(serial.value))
                                             else if d.serial.Some? then Some(FilterAlnum(d.serial.value)) else None) &&
            (Blank(d.model) ==> r.model == if model.Some? then model else d.model)
  {
    CpuinfoLastMatchWins(Blank(d.serial), Blank(d.model), CpuFields(d.serial, d.model), ClassifyCpuLines(host.cpuinfo));
  }

  /** One pass of the cpuinfo loop body (penistats.py:324-329); false when line.index(':') raises. */
  method ReadCpuinfoLine(dev: DeviceSettings, raw: string, lookSerial: bool, lookModel: bool, ghost c: CpuLine) returns (goOn: bool)
    requires c == ClassifyCpuLine(raw)
    modifies dev`serial, dev`model
    ensures CpuStep(lookSerial, lookModel, CpuFields(old(dev.serial), old(dev.model)), c) ==
            if goOn then Continue(CpuFields(dev.serial, dev.model)) else Stop(CpuFields(dev.serial, dev.model))
  {
    var line := Strip(raw);
    goOn := true;
    if lookSerial && Matches(raw, "serial") {
      var value := ValueAfterColon(line);
      if value.None? {
        goOn := false;
      } else {
        dev.serial := value;
      }
    }
    if goOn && lookModel && Matches(raw, "model") {
      var value := ValueAfterColon(line);
      if value.None? {
        goOn := false;
      } else {
        dev.model := value;
      }
    }
  }

  /** One pass of the loop, in terms of the scan over the lines not yet read, `rest`, whose first is `raw`. */
  method ReadCpuinfoStep(dev: DeviceSettings, raw: string, lookSerial: bool, lookModel: bool, ghost rest: seq<CpuLine>)
    returns (goOn: bool)
    requires rest != [] && rest[0] == ClassifyCpuLine(raw)
    modifies dev`serial, dev`model
    ensures !goOn ==> CpuFields(dev.serial, dev.model) ==
                      ScanCpuinfo(lookSerial, lookModel, CpuFields(old(dev.serial), old(dev.model)), rest)
    ensures goOn ==> ScanCpuinfo(lookSerial, lookModel, CpuFields(dev.serial, dev.model), rest[1..]) ==
                     ScanCpuinfo(lookSerial, lookModel, CpuFields(old(dev.serial), old(dev.model)), rest)
  {
    goOn := ReadCpuinfoLine(dev, raw, lookSerial, lookModel, rest[0]);
  }

  /** The cpuinfo loop (penistats.py:321-331): serial and model change line by line; the first line that raises ends it. */
  method ReadCpuinfo(dev: DeviceSettings, lines: seq<string>, lookSerial: bool, lookModel: bool)
    modifies dev`serial, dev`model
    ensures CpuFields(dev.serial, dev.model) ==
            ScanCpuinfo(lookSerial, lookModel, CpuFields(old(dev.serial), old(dev.model)), ClassifyCpuLines(lines))
  {
    ghost var cs := ClassifyCpuLines(lines);
    ghost var start := CpuFields(dev.serial, dev.model);
    var i := 0;
    var goOn := true;
    while i < |lines| && goOn
      invariant 0 <= i <= |lines|
      invariant !goOn ==> CpuFields(dev.serial, dev.model) == ScanCpuinfo(lookSerial, lookModel, start, cs)
      invariant goOn ==> ScanCpuinfo(lookSerial, lookModel, CpuFields(dev.serial, dev.model), cs[i..]) ==
                         ScanCpuinfo(lookSerial, lookModel, start, cs)
    {
      assert cs[i..][1..] == cs[i + 1..];
      assert cs[i..][0] == cs[i] == ClassifyCpuLine(lines[i]);
      goOn := ReadCpuinfoStep(dev, lines[i], lookSerial, lookModel, cs[i..]);
      i := i + 1;
    }
  }

  /** The group step of fixDeviceSettings (penistats.py:313-316), in place. */
  method RepairGroupInPlace(dev: DeviceSettings)
    modifies dev
    ensures dev.Value() == old(dev.Value()).(group := Some(RepairGroup(old(dev.group))))
  {
    if !IsStringEmpty(dev.group) {
      dev.group := Some(FilterAlnum(dev.group.value));
    }
    if IsStringEmpty(dev.group) {
      dev.group := Some(DefaultGroup);
    }
  }

  /** The group, cpuinfo and version steps of fixDeviceSettings (penistats.py:313-338), in place. */
  method RepairIdentity(dev: DeviceSettings, host: HostInfo)
    modifies dev
    ensures dev.Value() == RepairBeforeName(old(dev.Value()), host)
  {
    RepairGroupInPlace(dev);

    var lookSerial := IsStringEmpty(dev.serial);
    var lookModel := IsStringEmpty(dev.model);
    if lookSerial || lookModel {
      ReadCpuinfo(dev, host.cpuinfo, lookSerial, lookModel);
    }

    if IsStringEmpty(dev.version) {
      match host.procVersion {
        case Some(text) => dev.version := Some(text);
        case None =>
      }
    }
  }

  /** The serial, manufacturer and version clean-up of fixDeviceSettings (penistats.py:348-355), in place. */
  method CleanUpIdentity(dev: DeviceSettings)
    modifies dev
    ensures dev.Value() == RepairAfterName(old(dev.Value()))
  {
    if dev.serial.Some? {
      dev.serial := Some(FilterAlnum(dev.serial.value));
    }

    if IsStringEmpty(dev.manufacturer) && dev.model.Some? && Contains(Lower(dev.model.value), "raspberry") {
      dev.manufacturer := Some(RaspberryManufacturer);
    }

    if dev.version.Some? {
      dev.version := Some(Strip(dev.version.value));
    }
  }

  /**
   * fixDeviceSettings (penistats.py:309-355), updating the device in place step
   * by step. False when gethostbyaddr raises; the device then keeps the steps
   * done before the name.
   */
  method FixDeviceSettings(dev: DeviceSettings, host: HostInfo) returns (ok: bool)
    modifies dev
    ensures ok <==> FixDevice(old(dev.Value()), host).Some?
    ensures ok ==> dev.Value() == FixDevice(old(dev.Value()), host).value
    ensures !ok ==> dev.Value() == RepairBeforeName(old(dev.Value()), host)
  {
    RepairIdentity(dev, host);

    if IsStringEmpty(dev.name) {
      var deviceName := host.nodename;
      if IsStringEmpty(Some(deviceName)) {
        deviceName := host.hostname;
        if !('.' in deviceName) {
          if host.hostByAddr.None? {
            return false;
          }
          deviceName := host.hostByAddr.value;
        }
      }
      dev.name := Some(deviceName);
    }

    CleanUpIdentity(dev);
    ok := true;
  }

  /**
   * fixSettings (penistats.py:357-363): gives settings a blank device when it
   * has none, then repairs it. False when the repair raises.
   */
  method FixSettings(settings: Settings?, host: HostInfo) returns (ok: bool)
    modifies settings, if settings != null && settings.device != null then {settings.device} else {}
    ensures settings == null ==> ok
    ensures settings != null ==> settings.device != null
    ensures settings != null && old(settings.device) == null ==> fresh(settings.device)
    ensures settings != null && old(settings.device) != null ==> settings.device == old(settings.device)
    ensures settings != null ==> settings.schedule == old(settings.schedule) && settings.mqtts == old(settings.mqtts)
    ensures settings != null ==> (ok <==> FixDevice(old(settings.Value()).device.GetOr(EmptyDevice), host).Some?)
    ensures settings != null && ok ==>
      settings.device.Value() == FixDevice(old(settings.Value()).device.GetOr(EmptyDevice), host).value
  {
    if settings == null {
      return true;
    }
    if settings.device == null {
      settings.device := new DeviceSettings(EmptyDevice);
    }
    ok := FixDeviceSettings(settings.device, host);
  }
}
