/**
 * The settings classes of penistats.py (DeviceSettings, ScheduleEverySettings,
 * ScheduleSettings, MqttSettings, Settings), built from the dictionary that
 * json.load returns, their isSet completeness checks, readSettings, and the
 * choice of run mode made once at startup.
 *
 * DeviceSettings and Settings are classes because fixSettings and
 * fixDeviceSettings update them in place; the schedule and MQTT settings are
 * never changed after loading and are values.
 */
module SettingsModel {
  import opened Wrappers
  import opened Tools
  import opened JsonValues

  /** Why Settings(...) raised, making readSettings return None. */
  datatype LoadError =
    | NotAContainer(what: string)     // `key in v` raised: v is a number or a boolean
    | NotSubscriptable(what: string)  // `key in v` held for a list or a string v, and v[key] raised
    | NotIterable(what: string)       // `for x in v` raised: v is None, a number or a boolean
    | NotAString(key: string)
    | NotAnInt(key: string)

  /** The six attributes of a DeviceSettings object. */
  datatype Device = Device(
    group: Option<string>,
    serial: Option<string>,
    manufacturer: Option<string>,
    model: Option<string>,
    version: Option<string>,
    name: Option<string>)

  const EmptyDevice := Device(None, None, None, None, None, None)

  datatype ScheduleEverySettings = ScheduleEverySettings(minutes: Option<int>)

  datatype ScheduleSettings = ScheduleSettings(every: Option<ScheduleEverySettings>)

  datatype MqttSettings = MqttSettings(
    hostname: Option<string>,
    port: Option<int>,
    topic: Json,         // stored as found and never read
    clientId: string,
    username: Option<string>,
    password: Option<string>,
    caCertsPath: Option<string>,
    isHA: Option<bool>)

  /** An MqttSettings built from no keys at all: only the generated client id. */
  function DefaultMqtt(generatedId: string): MqttSettings {
    MqttSettings(None, None, Null, generatedId, None, None, None, None)
  }

  /** The attributes of a Settings object, with its device as a value. */
  datatype SettingsValue = SettingsValue(
    device: Option<Device>,
    schedule: Option<ScheduleSettings>,
    mqtts: seq<MqttSettings>)

  /** The keys each constructor tests with `in`, in the order it tests them. */
  const DeviceKeys: seq<string> := ["group", "serial", "manufacturer", "model", "version", "name"]
  const EveryKeys: seq<string> := ["minutes"]
  const ScheduleKeys: seq<string> := ["every"]
  const MqttKeys: seq<string> := ["hostname", "port", "topic", "clientId", "username", "password", "caCertsPath", "isHA"]
  const SettingsKeys: seq<string> := ["device", "schedule", "mqtts"]

  /**
   * Python's `key in v` for a value that is not None and not a number: a key
   * of an object, an item of a list, a substring of a string.
   */
  predicate KeyIn(v: Json, key: string) {
    match v
    case Object(m) => key in m
    case List(xs) => Str(key) in xs
    case Str(s) => Contains(s, key)
    case _ => false
  }

  /** Whether `key in v` holds for one of `keys`. */
  predicate MentionsAny(v: Json, keys: seq<string>) {
    exists k | k in keys :: KeyIn(v, k)
  }

  /**
   * The dictionary a constructor reads its keys from. None gives no keys
   * (every attribute keeps its default) and an object gives its own. For a
   * list or a string, `key in v` is a membership or substring test: when it
   * holds for one of the keys the lookup v[key] that follows raises, and
   * otherwise no key is present. For a number or a boolean, `in` raises.
   */
  function Entries(v: Json, keys: seq<string>, what: string): (r: Result<map<string, Json>, LoadError>)
    ensures r.Ok? <==> v.Null? || v.Object? || ((v.List? || v.Str?) && !MentionsAny(v, keys))
    ensures r.Ok? && v.Object? ==> r.value == v.fields
    ensures r.Ok? && !v.Object? ==> r.value == map[]
  {
    match v
    case Null => Ok(map[])
    case Object(m) => Ok(m)
    case List(_) => if MentionsAny(v, keys) then Err(NotSubscriptable(what)) else Ok(map[])
    case Str(_) => if MentionsAny(v, keys) then Err(NotSubscriptable(what)) else Ok(map[])
    case _ => Err(NotAContainer(what))
  }

  /** settingsDict[key] if the key is present; an absent key leaves the attribute None, like a JSON null. */
  function Lookup(m: map<string, Json>, key: string): Json {
    if key in m then m[key] else Null
  }

  /** A key whose value can be stored into a str attribute: absent, null or a string. */
  predicate StrOrNull(m: map<string, Json>, key: string) {
    Lookup(m, key).Null? || Lookup(m, key).Str?
  }

  /** The string a JSON value holds, None for anything else. */
  function StrValue(v: Json): Option<string> {
    if v.Str? then Some(v.s) else None
  }

  /** A value stored into a str attribute: a string or None. */
  function AsString(v: Json, key: string): (r: Result<Option<string>, LoadError>)
    ensures r.Ok? <==> v.Null? || v.Str?
    ensures r.Ok? ==> r.value == StrValue(v)
  {
    match v
    case Null => Ok(None)
    case Str(s) => Ok(Some(s))
    case _ => Err(NotAString(key))
  }

  /** Python's int(x) on a value json.load can produce; None where int() raises. */
  function PyInt(v: Json): (r: Option<int>)
    ensures v.Null? || v.List? || v.Object? ==> r.None?
    ensures v.Int? ==> r == Some(v.i)
    ensures v.Bool? ==> r == Some(if v.b then 1 else 0)
    ensures v.Str? ==> (r.Some? <==> IntText(Strip(v.s))) && r == ParseInt(v.s)
  {
    match v
    case Int(i) => Some(i)
    case Bool(b) => Some(if b then 1 else 0)
    case Str(s) => ParseInt(s)
    case _ => None
  }

  /**
   * DeviceSettings.__init__. The value under 'model' is stored into serial,
   * overriding 'serial', and the model attribute is never set from the document.
   */
  function ParseDevice(v: Json): (r: Result<Device, LoadError>)
    ensures v.Null? ==> r == Ok(EmptyDevice)
    ensures v.Int? || v.Bool? ==> r.Err?
    ensures v.List? || v.Str? ==> (r.Ok? <==> !MentionsAny(v, DeviceKeys)) && (r.Ok? ==> r.value == EmptyDevice)
    ensures r.Ok? ==> r.value.model.None?
    ensures v.Object? ==>
      (r.Ok? <==>
        StrOrNull(v.fields, "group") && StrOrNull(v.fields, if "model" in v.fields then "model" else "serial") &&
        StrOrNull(v.fields, "manufacturer") && StrOrNull(v.fields, "version") && StrOrNull(v.fields, "name"))
    ensures r.Ok? && v.Object? && "model" in v.fields ==> r.value.serial == StrValue(v.fields["model"])
    ensures r.Ok? && v.Object? && "model" !in v.fields ==> r.value.serial == StrValue(Lookup(v.fields, "serial"))
    ensures r.Ok? && v.Object? ==>
      r.value.group == StrValue(Lookup(v.fields, "group")) &&
      r.value.manufacturer == StrValue(Lookup(v.fields, "manufacturer")) &&
      r.value.version == StrValue(Lookup(v.fields, "version")) &&
      r.value.name == StrValue(Lookup(v.fields, "name"))
  {
    var m :- Entries(v, DeviceKeys, "device");
    var group :- AsString(Lookup(m, "group"), "group");
    var serial :- if "model" in m then AsString(m["model"], "model") else AsString(Lookup(m, "serial"), "serial");
    var manufacturer :- AsString(Lookup(m, "manufacturer"), "manufacturer");
    var version :- AsString(Lookup(m, "version"), "version");
    var name :- AsString(Lookup(m, "name"), "name");
    Ok(Device(group, serial, manufacturer, None, version, name))
  }

  /** ScheduleEverySettings.__init__; a boolean is an int to Python, True being 1. */
  function ParseEvery(v: Json): (r: Result<ScheduleEverySettings, LoadError>)
    ensures v.Null? ==> r == Ok(ScheduleEverySettings(None))
    ensures v.Int? || v.Bool? ==> r.Err?
    ensures v.List? || v.Str? ==>
      (r.Ok? <==> !MentionsAny(v, EveryKeys)) && (r.Ok? ==> r.value == ScheduleEverySettings(None))
    ensures v.Object? && "minutes" in v.fields && v.fields["minutes"].Int? ==>
      r == Ok(ScheduleEverySettings(Some(v.fields["minutes"].i)))
    ensures v.Object? && "minutes" in v.fields && v.fields["minutes"].Bool? ==>
      r == Ok(ScheduleEverySettings(Some(if v.fields["minutes"].b then 1 else 0)))
    ensures v.Object? && Lookup(v.fields, "minutes").Null? ==> r == Ok(ScheduleEverySettings(None))
  {
    var m :- Entries(v, EveryKeys, "every");
    match Lookup(m, "minutes")
    case Null => Ok(ScheduleEverySettings(None))
    case Int(n) => Ok(ScheduleEverySettings(Some(n)))
    case Bool(b) => Ok(ScheduleEverySettings(Some(if b then 1 else 0)))
    case _ => Err(NotAnInt("minutes"))
  }

  /** ScheduleSettings.__init__ */
  function ParseSchedule(v: Json): (r: Result<ScheduleSettings, LoadError>)
    ensures v.Null? ==> r == Ok(ScheduleSettings(None))
    ensures v.Int? || v.Bool? ==> r.Err?
    ensures v.List? || v.Str? ==>
      (r.Ok? <==> !MentionsAny(v, ScheduleKeys)) && (r.Ok? ==> r.value == ScheduleSettings(None))
    ensures r.Ok? && v.Object? ==> (r.value.every.Some? <==> "every" in v.fields)
    ensures v.Object? && "every" !in v.fields ==> r == Ok(ScheduleSettings(None))
    ensures v.Object? && "every" in v.fields ==>
      (r.Ok? <==> ParseEvery(v.fields["every"]).Ok?) &&
      (r.Ok? ==> Ok(r.value.every.value) == ParseEvery(v.fields["every"]))
  {
    var m :- Entries(v, ScheduleKeys, "schedule");
    if "every" in m then
      var every :- ParseEvery(m["every"]);
      Ok(ScheduleSettings(Some(every)))
    else
      Ok(ScheduleSettings(None))
  }

  /** MqttSettings.__init__; `generatedId` stands for str(uuid.uuid4()). */
  function ParseMqtt(v: Json, generatedId: string): (r: Result<MqttSettings, LoadError>)
    ensures v.Null? ==> r == Ok(DefaultMqtt(generatedId))
    ensures v.Int? || v.Bool? ==> r.Err?
    ensures v.List? || v.Str? ==>
      (r.Ok? <==> !MentionsAny(v, MqttKeys)) && (r.Ok? ==> r.value == DefaultMqtt(generatedId))
    ensures v.Object? ==>
      (r.Ok? <==>
        StrOrNull(v.fields, "hostname") && StrOrNull(v.fields, "clientId") && StrOrNull(v.fields, "username") &&
        StrOrNull(v.fields, "password") && StrOrNull(v.fields, "caCertsPath") &&
        ("port" in v.fields ==> PyInt(v.fields["port"]).Some?))
    ensures r.Ok? && v.Object? ==>
      r.value.hostname == StrValue(Lookup(v.fields, "hostname")) &&
      r.value.port == (if "port" in v.fields then PyInt(v.fields["port"]) else None) &&
      r.value.topic == Lookup(v.fields, "topic") &&
      r.value.isHA == (if "isHA" in v.fields then Some(Truthy(v.fields["isHA"])) else None) &&
      r.value.username == StrValue(Lookup(v.fields, "username")) &&
      r.value.password == StrValue(Lookup(v.fields, "password")) &&
      r.value.caCertsPath == StrValue(Lookup(v.fields, "caCertsPath"))
    ensures r.Ok? && v.Object? ==>
      var configured := StrValue(Lookup(v.fields, "clientId"));
      r.value.clientId == if Blank(configured) then generatedId else configured.value
  {
    var m :- Entries(v, MqttKeys, "mqtt");
    var hostname :- AsString(Lookup(m, "hostname"), "hostname");
    var port :- if "port" !in m then Ok(None)
                else if PyInt(m["port"]).Some? then Ok(PyInt(m["port"]))
                else Err(NotAnInt("port"));
    var clientId :- AsString(Lookup(m, "clientId"), "clientId");
    var username :- AsString(Lookup(m, "username"), "username");
    var password :- AsString(Lookup(m, "password"), "password");
    var caCertsPath :- AsString(Lookup(m, "caCertsPath"), "caCertsPath");
    var isHA := if "isHA" in m then Some(Truthy(m["isHA"])) else None;
    var id := if IsStringEmpty(clientId) then generatedId else clientId.value;
    Ok(MqttSettings(hostname, port, Lookup(m, "topic"), id, username, password, caCertsPath, isHA))
  }

  /** Each item loaded in turn, the k-th by load(item, k); an item that fails makes the whole fail. */
  function LoadEach(items: seq<Json>, load: (Json, nat) -> Result<MqttSettings, LoadError>): (r: Result<seq<MqttSettings>, LoadError>)
    ensures r.Ok? <==> forall k | 0 <= k < |items| :: load(items[k], k).Ok?
    ensures r.Ok? ==> |r.value| == |items|
    ensures r.Ok? ==> forall k | 0 <= k < |items| :: Ok(r.value[k]) == load(items[k], k)
  {
    if items == [] then Ok([])
    else
      var n := |items| - 1;
      assert forall k | 0 <= k < n :: items[..n][k] == items[k];
      var front :- LoadEach(items[..n], load);
      var last :- load(items[n], n);
      Ok(front + [last])
  }

  /**
   * The loop of Settings.__init__ that appends one MqttSettings per entry of
   * 'mqtts'; entry k gets the k-th generated client id.
   */
  function ParseMqtts(items: seq<Json>, uuids: nat -> string): (r: Result<seq<MqttSettings>, LoadError>)
    ensures r.Ok? <==> forall k | 0 <= k < |items| :: ParseMqtt(items[k], uuids(k)).Ok?
    ensures r.Ok? ==> |r.value| == |items|
    ensures r.Ok? ==> forall k | 0 <= k < |items| :: Ok(r.value[k]) == ParseMqtt(items[k], uuids(k))
  {
    LoadEach(items, (v: Json, k: nat) => ParseMqtt(v, uuids(k)))
  }

  /** What `for x in s` yields for a string s: its characters, each a string of one. */
  function Chars(s: string): (r: seq<Json>)
    ensures |r| == |s|
    ensures forall i | 0 <= i < |s| :: r[i] == Str([s[i]])
  {
    seq(|s|, i requires 0 <= i < |s| => Str([s[i]]))
  }

  /**
   * `for mqttDict in settingsDict['mqtts']`: the items of a list, the
   * characters of a string, the keys of an object. Every key is a string, and
   * a string gives an MqttSettings with no keys, so the order of the keys
   * only decides which generated id goes with which; the model gives them
   * out in order. None, a number or a boolean cannot be iterated.
   */
  function ParseMqttList(v: Json, uuids: nat -> string): (r: Result<seq<MqttSettings>, LoadError>)
    ensures v.List? ==> r == ParseMqtts(v.items, uuids)
    ensures v.Str? ==> r == ParseMqtts(Chars(v.s), uuids)
    ensures v.Object? ==> (r.Ok? <==> forall k | k in v.fields :: ParseMqtt(Str(k), uuids(0)).Ok?)
    ensures v.Object? && r.Ok? ==> |r.value| == |v.fields| && forall i | 0 <= i < |r.value| :: r.value[i] == DefaultMqtt(uuids(i))
    ensures v.Null? || v.Int? || v.Bool? ==> r.Err?
  {
    match v
    case List(items) => ParseMqtts(items, uuids)
    case Str(s) => ParseMqtts(Chars(s), uuids)
    case Object(m) =>
      if exists k | k in m :: MentionsAny(Str(k), MqttKeys) then Err(NotSubscriptable("mqtt"))
      else Ok(seq(|m|, i requires 0 <= i => DefaultMqtt(uuids(i))))
    case _ => Err(NotIterable("mqtts"))
  }

  /**
   * A string under 'mqtts' gives one destination per character, each built
   * from no keys: a one-character string holds none of the key names.
   */
  lemma StringMqttsAreDefaults(s: string, uuids: nat -> string)
    ensures ParseMqttList(Str(s), uuids).Ok?
    ensures forall i | 0 <= i < |s| :: ParseMqttList(Str(s), uuids).value[i] == DefaultMqtt(uuids(i))
  {
    forall i | 0 <= i < |s|
      ensures ParseMqtt(Chars(s)[i], uuids(i)) == Ok(DefaultMqtt(uuids(i)))
    {
      forall k | k in MqttKeys
        ensures !KeyIn(Str([s[i]]), k)
      {
        ContainsNeedsRoom([s[i]], k);
      }
    }
  }

  /** Settings.__init__ as run by readSettings: a document that makes it raise gives an error. */
  function ParseSettings(doc: Json, uuids: nat -> string): (r: Result<SettingsValue, LoadError>)
    ensures doc.Null? ==> r == Ok(SettingsValue(None, None, []))
    ensures doc.Int? || doc.Bool? ==> r.Err?
    ensures doc.List? || doc.Str? ==>
      (r.Ok? <==> !MentionsAny(doc, SettingsKeys)) && (r.Ok? ==> r.value == SettingsValue(None, None, []))
    ensures r.Ok? && doc.Object? ==>
      (r.value.device.Some? <==> "device" in doc.fields) &&
      (r.value.schedule.Some? <==> "schedule" in doc.fields) &&
      ("mqtts" !in doc.fields ==> r.value.mqtts == [])
    ensures r.Ok? && doc.Object? && "device" in doc.fields ==> ParseDevice(doc.fields["device"]) == Ok(r.value.device.value)
    ensures r.Ok? && doc.Object? && "schedule" in doc.fields ==> ParseSchedule(doc.fields["schedule"]) == Ok(r.value.schedule.value)
    ensures r.Ok? && doc.Object? && "mqtts" in doc.fields ==> ParseMqttList(doc.fields["mqtts"], uuids) == Ok(r.value.mqtts)
    ensures doc.Object? && "device" in doc.fields && ParseDevice(doc.fields["device"]).Err? ==> r.Err?
    ensures doc.Object? && "schedule" in doc.fields && ParseSchedule(doc.fields["schedule"]).Err? ==> r.Err?
    ensures doc.Object? && "mqtts" in doc.fields && ParseMqttList(doc.fields["mqtts"], uuids).Err? ==> r.Err?
    ensures (doc.Object? &&
             ("device" in doc.fields ==> ParseDevice(doc.fields["device"]).Ok?) &&
             ("schedule" in doc.fields ==> ParseSchedule(doc.fields["schedule"]).Ok?) &&
             ("mqtts" in doc.fields ==> ParseMqttList(doc.fields["mqtts"], uuids).Ok?))
            ==> r.Ok?
  {
    var m :- Entries(doc, SettingsKeys, "settings");
    var device :- if "device" in m then
                    (var d :- ParseDevice(m["device"]); Ok(Some(d)))
                  else Ok(None);
    var schedule :- if "schedule" in m then
                      (var s :- ParseSchedule(m["schedule"]); Ok(Some(s)))
                    else Ok(None);
    var mqtts :- if "mqtts" in m then ParseMqttList(m["mqtts"], uuids) else Ok([]);
    Ok(SettingsValue(device, schedule, mqtts))
  }

  /** DeviceSettings.isSet: group, serial, model and name all non-blank. */
  predicate DeviceIsSet(d: Device): (r: bool)
    ensures r <==> !Blank(d.group) && !Blank(d.serial) && !Blank(d.model) && !Blank(d.name)
  {
    !IsStringEmpty(d.group) && !IsStringEmpty(d.serial) && !IsStringEmpty(d.model) && !IsStringEmpty(d.name)
  }

  /** MqttSettings.isSet: a destination needs a hostname and a port; the other attributes play no part. */
  predicate MqttIsSet(m: MqttSettings): (r: bool)
    ensures r <==> m.hostname.Some? && m.port.Some?
  {
    m.hostname.Some? && m.port.Some?
  }

  /** The loop over mqtts in Settings.isSet, which returns False at the first incomplete entry. */
  function AllMqttsSet(ms: seq<MqttSettings>): (r: bool)
    ensures r <==> forall k | 0 <= k < |ms| :: ms[k].hostname.Some? && ms[k].port.Some?
  {
    if ms == [] then true
    else if !MqttIsSet(ms[0]) then false
    else AllMqttsSet(ms[1..])
  }

  /** Settings.isSet: the device is mandatory and set; every destination, if any, is set. */
  function SettingsIsSet(s: SettingsValue): (r: bool)
    ensures r <==>
      s.device.Some? &&
      !Blank(s.device.value.group) && !Blank(s.device.value.serial) &&
      !Blank(s.device.value.model) && !Blank(s.device.value.name) &&
      forall k | 0 <= k < |s.mqtts| :: s.mqtts[k].hostname.Some? && s.mqtts[k].port.Some?
  {
    if s.device.None? || !DeviceIsSet(s.device.value) then false
    else if |s.mqtts| > 0 then AllMqttsSet(s.mqtts)
    else true
  }

  /** ScheduleEverySettings.isSet: minutes is not None, whatever its value. */
  predicate EveryIsSet(e: ScheduleEverySettings): (r: bool)
    ensures r <==> e.minutes.Some?
  {
    e.minutes.Some?
  }

  /** ScheduleSettings.isSet: an 'every' part that is itself set. */
  predicate ScheduleIsSet(s: ScheduleSettings): (r: bool)
    ensures r <==> s.every.Some? && s.every.value.minutes.Some?
  {
    s.every.Some? && EveryIsSet(s.every.value)
  }

  /** A device read from the document is never set: its model attribute is only filled in by the repair. */
  lemma LoadedDeviceNotSet(v: Json)
    requires ParseDevice(v).Ok?
    ensures !DeviceIsSet(ParseDevice(v).value)
  {
  }

  /** A destination read from the document is set exactly when the document gives it a hostname and a port. */
  lemma LoadedMqttSet(v: Json, generatedId: string)
    requires ParseMqtt(v, generatedId).Ok?
    ensures MqttIsSet(ParseMqtt(v, generatedId).value) <==>
              v.Object? && "hostname" in v.fields && v.fields["hostname"].Str? && "port" in v.fields
  {
  }

  /** A schedule read from the document is set exactly when it holds an 'every' object whose minutes are not null. */
  lemma LoadedScheduleSet(v: Json)
    requires ParseSchedule(v).Ok?
    ensures ScheduleIsSet(ParseSchedule(v).value) <==>
              v.Object? && "every" in v.fields && v.fields["every"].Object? &&
              !Lookup(v.fields["every"].fields, "minutes").Null?
  {
  }

  /** The three ways the program runs, chosen once at startup (penistats.py:568-589). */
  datatype RunMode =
    | Loop(everyMinutes: Option<int>)   // run_pending forever; a job is registered only for a positive period
    | SingleShotWithSettings
    | SingleShotWithoutSettings

  /** The startup choice, from the settings left by readSettings and fixSettings (None when reading failed). */
  function ChooseRunMode(settings: Option<SettingsValue>): (r: RunMode)
    ensures r.SingleShotWithoutSettings? <==> settings.None? || !SettingsIsSet(settings.value)
    ensures r.Loop? <==> settings.Some? && SettingsIsSet(settings.value) &&
                         settings.value.schedule.Some? && ScheduleIsSet(settings.value.schedule.value)
    ensures r.Loop? && r.everyMinutes.Some? ==>
      r.everyMinutes.value > 0 && r.everyMinutes == settings.value.schedule.value.every.value.minutes
    ensures r.Loop? && r.everyMinutes.None? ==> settings.value.schedule.value.every.value.minutes.value <= 0
  {
    if settings.Some? && SettingsIsSet(settings.value) then
      var s := settings.value;
      if s.schedule.Some? && ScheduleIsSet(s.schedule.value) then
        var minutes := s.schedule.value.every.value.minutes.value;
        Loop(if minutes > 0 then Some(minutes) else None)
      else
        SingleShotWithSettings
    else
      SingleShotWithoutSettings
  }

  /** A DeviceSettings object: its attributes are updated in place by fixDeviceSettings. */
  class DeviceSettings {
    var group: Option<string>
    var serial: Option<string>
    var manufacturer: Option<string>
    var model: Option<string>
    var version: Option<string>
    var name: Option<string>

    constructor (d: Device)
      ensures Value() == d
    {
      group, serial, manufacturer := d.group, d.serial, d.manufacturer;
      model, version, name := d.model, d.version, d.name;
    }

    function Value(): Device
      reads this
    {
      Device(group, serial, manufacturer, model, version, name)
    }
  }

  /** A Settings object: fixSettings gives it a device when it has none. */
  class Settings {
    var device: DeviceSettings?
    var schedule: Option<ScheduleSettings>
    var mqtts: seq<MqttSettings>

    constructor ()
      ensures device == null && schedule.None? && mqtts == []
    {
      device, schedule, mqtts := null, None, [];
    }

    function Value(): SettingsValue
      reads this, device
    {
      SettingsValue(if device == null then None else Some(device.Value()), schedule, mqtts)
    }

    /** The loop of Settings.__init__ over 'mqtts': one MqttSettings appended per entry of `v`; false when it raises. */
    method AppendMqtts(v: Json, uuids: nat -> string) returns (ok: bool)
      requires mqtts == []
      modifies this`mqtts
      ensures ok <==> ParseMqttList(v, uuids).Ok?
      ensures ok ==> mqtts == ParseMqttList(v, uuids).value
    {
      match v
      case List(items) => ok := AppendItems(items, uuids);
      case Str(s) => ok := AppendItems(Chars(s), uuids);
      case Object(m) => ok := AppendKeys(m, uuids);
      case _ => ok := false;
    }

    /** The loop over the items of a list, or the characters of a string. */
    method AppendItems(items: seq<Json>, uuids: nat -> string) returns (ok: bool)
      requires mqtts == []
      modifies this`mqtts
      ensures ok <==> ParseMqtts(items, uuids).Ok?
      ensures ok ==> mqtts == ParseMqtts(items, uuids).value
    {
      var i := 0;
      while i < |items|
        invariant 0 <= i <= |items|
        invariant ParseMqtts(items[..i], uuids) == Ok(mqtts)
      {
        var mqtt := ParseMqtt(items[i], uuids(i));
        assert items[..i + 1][..i] == items[..i];
        if mqtt.Err? {
          return false;
        }
        mqtts := mqtts + [mqtt.value];
        i := i + 1;
      }
      assert items[..i] == items;
      ok := true;
    }

    /** The loop over the keys of an object, taken in the order the model picks them. */
    method AppendKeys(m: map<string, Json>, uuids: nat -> string) returns (ok: bool)
      requires mqtts == []
      modifies this`mqtts
      ensures ok <==> ParseMqttList(Object(m), uuids).Ok?
      ensures ok ==> mqtts == ParseMqttList(Object(m), uuids).value
    {
      var left := m.Keys;
      while left != {}
        invariant left <= m.Keys
        invariant |mqtts| + |left| == |m.Keys|
        invariant forall i | 0 <= i < |mqtts| :: mqtts[i] == DefaultMqtt(uuids(i))
        invariant forall k | k in m.Keys - left :: !MentionsAny(Str(k), MqttKeys)
        decreases |left|
      {
        var k :| k in left;
        var mqtt := ParseMqtt(Str(k), uuids(|mqtts|));
        if mqtt.Err? {
          return false;
        }
        mqtts := mqtts + [mqtt.value];
        left := left - {k};
      }
      assert m.Keys - left == m.Keys;
      ok := true;
    }
  }

  /**
   * readSettings once json.load has produced `doc`: Settings(doc), or null
   * when the constructor raises. An unreadable or malformed file is null too.
   */
  method ReadSettings(doc: Json, uuids: nat -> string) returns (s: Settings?)
    ensures s == null <==> ParseSettings(doc, uuids).Err?
    ensures s != null ==> fresh(s) && (s.device == null || fresh(s.device))
    ensures s != null ==> s.Value() == ParseSettings(doc, uuids).value
  {
    var entries := Entries(doc, SettingsKeys, "settings");
    if entries.Err? {
      return null;
    }
    var m := entries.value;
    s := new Settings();
    if "device" in m {
      var d := ParseDevice(m["device"]);
      if d.Err? {
        return null;
      }
      s.device := new DeviceSettings(d.value);
    }
    if "schedule" in m {
      var sc := ParseSchedule(m["schedule"]);
      if sc.Err? {
        return null;
      }
      s.schedule := Some(sc.value);
    }
    if "mqtts" in m {
      var ok := s.AppendMqtts(m["mqtts"], uuids);
      if !ok {
        return null;
      }
    }
  }
}
