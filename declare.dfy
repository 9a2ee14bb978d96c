/**
 * The declaration messages: the DeclareValue, DeclareHADevice and
 * DeclareHAValue payloads with their toDict dictionaries, and the retained
 * publishes declareValues2HAMqtt and declareValues2DefaultMqtt hand to the
 * MQTT client, as a list instead of client calls.
 */
module Declare {
  import opened Wrappers
  import opened Tools
  import opened SettingsModel

  /** The keys of the declaration dictionaries; KeyText gives the text each has in the JSON message. */
  datatype Field =
    | Name | Unit | Tag
    | Group | Serial | Manufacturer | Model | Version
    | Identifiers | SwVersion
    | DeviceField | EnabledByDefault | EntityCategory | Icon | JsonAttributesTopic
    | StateClass | StateTopic | UniqueId | UnitOfMeasurement | ValueTemplate

  function KeyText(f: Field): string {
    match f
    case Name => "name"
    case Unit => "unit"
    case Tag => "tag"
    case Group => "group"
    case Serial => "serial"
    case Manufacturer => "manufacturer"
    case Model => "model"
    case Version => "version"
    case Identifiers => "identifiers"
    case SwVersion => "sw_version"
    case DeviceField => "device"
    case EnabledByDefault => "enabled_by_default"
    case EntityCategory => "entity_category"
    case Icon => "icon"
    case JsonAttributesTopic => "json_attributes_topic"
    case StateClass => "state_class"
    case StateTopic => "state_topic"
    case UniqueId => "unique_id"
    case UnitOfMeasurement => "unit_of_measurement"
    case ValueTemplate => "value_template"
  }

  /** A value in a toDict dictionary, as json.dumps receives it. */
  datatype Payload = Text(text: string) | Flag(flag: bool) | Texts(texts: seq<string>) | Dict(entries: map<Field, Payload>)

  /**
   * `if not isStringEmpty(value): res[key] = value`, one step of a toDict fill;
   * Blank is what isStringEmpty computes (Tools.IsStringEmpty).
   */
  function PutIfSet(res: map<Field, Payload>, key: Field, value: Option<string>): map<Field, Payload> {
    if !Blank(value) then res[key := Text(value.value)] else res
  }

  /** One optional field of a toDict method: the key and the text stored under it. */
  datatype Entry = Entry(key: Field, value: Option<string>)

  /** The optional part of a toDict method: its steps, in order, from the dictionary `res`. */
  function Fill(res: map<Field, Payload>, entries: seq<Entry>): map<Field, Payload>
    decreases |entries|
  {
    if entries == [] then res
    else Fill(PutIfSet(res, entries[0].key, entries[0].value), entries[1..])
  }

  /** `key` is in the dictionary exactly when `value` is not blank, and then holds its text. */
  predicate Holds(r: map<Field, Payload>, key: Field, value: Option<string>) {
    (key in r <==> !Blank(value)) && (key in r ==> r[key] == Text(value.value))
  }

  /** No other entry has the key of entry i. */
  predicate KeyOnce(entries: seq<Entry>, i: nat)
    requires i < |entries|
  {
    forall j | 0 <= j < |entries| && j != i :: entries[j].key != entries[i].key
  }

  /** A key no entry names keeps what it had before the fill. */
  lemma {:induction false} FillKeepsOthers(res: map<Field, Payload>, entries: seq<Entry>, k: Field)
    requires forall j | 0 <= j < |entries| :: entries[j].key != k
    ensures k in Fill(res, entries) <==> k in res
    ensures k in res ==> Fill(res, entries)[k] == res[k]
    decreases |entries|
  {
    if entries != [] {
      FillKeepsOthers(PutIfSet(res, entries[0].key, entries[0].value), entries[1..], k);
    }
  }

  /** The fill stores each entry whose key is new and named once, exactly when its text is not blank. */
  lemma {:induction false} FillStores(res: map<Field, Payload>, entries: seq<Entry>, i: nat)
    requires i < |entries| && KeyOnce(entries, i) && entries[i].key !in res
    ensures Holds(Fill(res, entries), entries[i].key, entries[i].value)
    decreases |entries|
  {
    var res1 := PutIfSet(res, entries[0].key, entries[0].value);
    if i == 0 {
      FillKeepsOthers(res1, entries[1..], entries[0].key);
    } else {
      assert entries[0].key != entries[i].key;
      assert entries[1..][i - 1] == entries[i];
      FillStores(res1, entries[1..], i - 1);
    }
  }

  /** The fill adds no key but those its entries name. */
  lemma {:induction false} FillKeys(res: map<Field, Payload>, entries: seq<Entry>)
    ensures forall k | k in Fill(res, entries) :: k in res || exists j | 0 <= j < |entries| :: entries[j].key == k
    decreases |entries|
  {
    if entries != [] {
      var res1 := PutIfSet(res, entries[0].key, entries[0].value);
      FillKeys(res1, entries[1..]);
      forall k | k in Fill(res, entries) && k !in res
        ensures exists j | 0 <= j < |entries| :: entries[j].key == k
      {
        if k == entries[0].key {
          assert entries[0].key == k;
        } else {
          var j :| 0 <= j < |entries[1..]| && entries[1..][j].key == k;
          assert entries[j + 1].key == k;
        }
      }
    }
  }

  /** A value the program reports: its name, unit and the key it has in the values message. */
  datatype DeclareValue = DeclareValue(name: Option<string>, unit: Option<string>, tag: Option<string>)

  function StripOpt(s: Option<string>): Option<string> {
    match s
    case Some(v) => Some(Strip(v))
    case None => None
  }

  /** DeclareValue.__init__ (penistats.py:197-200): each field is stored stripped. */
  function NewDeclareValue(name: Option<string>, unit: Option<string>, tag: Option<string>): (r: DeclareValue)
    ensures r.name.None? <==> name.None?
    ensures r.unit.None? <==> unit.None?
    ensures r.tag.None? <==> tag.None?
    ensures r.name.Some? ==> r.name.value == Strip(name.value) && Trimmed(r.name.value)
    ensures r.unit.Some? ==> r.unit.value == Strip(unit.value) && Trimmed(r.unit.value)
    ensures r.tag.Some? ==> r.tag.value == Strip(tag.value) && Trimmed(r.tag.value)
  {
    DeclareValue(StripOpt(name), StripOpt(unit), StripOpt(tag))
  }

  /** Building a DeclareValue from the fields of one gives it back: the fields are already stripped. */
  lemma NewDeclareValueIdempotent(name: Option<string>, unit: Option<string>, tag: Option<string>)
    ensures var v := NewDeclareValue(name, unit, tag);
            NewDeclareValue(v.name, v.unit, v.tag) == v
  {
    StripIdempotentOpt(name);
    StripIdempotentOpt(unit);
    StripIdempotentOpt(tag);
  }

  lemma StripIdempotentOpt(s: Option<string>)
    ensures StripOpt(StripOpt(s)) == StripOpt(s)
  {
    if s.Some? {
      StripIdempotent(s.value);
    }
  }

  /** DeclareValue.toDict (penistats.py:202-210): name, unit and tag, each when not blank. */
  function ValueEntries(v: DeclareValue): seq<Entry> {
    [Entry(Name, v.name), Entry(Unit, v.unit), Entry(Tag, v.tag)]
  }

  function ValueDict(v: DeclareValue): map<Field, Payload> {
    Fill(map[], ValueEntries(v))
  }

  /** The value message declaration holds exactly the name, unit and tag that are not blank. */
  lemma ValueDictContents(v: DeclareValue)
    ensures var r := ValueDict(v);
      Holds(r, Name, v.name) && Holds(r, Unit, v.unit) && Holds(r, Tag, v.tag)
  {
    var es := ValueEntries(v);
    FillStores(map[], es, 0);
    FillStores(map[], es, 1);
    FillStores(map[], es, 2);
  }

  /** The value declaration has no other key. */
  lemma ValueDictKeys(v: DeclareValue)
    ensures ValueDict(v).Keys <= {Name, Unit, Tag}
  {
    FillKeys(map[], ValueEntries(v));
  }

  /** DeviceSettings.toDict (penistats.py:91-105): the device as the default declaration sends it. */
  function DeviceEntries(d: Device): seq<Entry> {
    [Entry(Group, d.group), Entry(Serial, d.serial), Entry(Manufacturer, d.manufacturer),
     Entry(Model, d.model), Entry(Version, d.version), Entry(Name, d.name)]
  }

  function DeviceDict(d: Device): map<Field, Payload> {
    Fill(map[], DeviceEntries(d))
  }

  /** The device declaration holds exactly the device fields that are not blank. */
  lemma DeviceDictContents(d: Device)
    ensures var r := DeviceDict(d);
      Holds(r, Group, d.group) && Holds(r, Serial, d.serial) &&
      Holds(r, Manufacturer, d.manufacturer) && Holds(r, Model, d.model) &&
      Holds(r, Version, d.version) && Holds(r, Name, d.name)
  {
    DeviceStores(d, 0);
    DeviceStores(d, 1);
    DeviceStores(d, 2);
    DeviceStores(d, 3);
    DeviceStores(d, 4);
    DeviceStores(d, 5);
  }

  /** The device declaration has no key but the six fields of DeviceSettings. */
  lemma DeviceDictKeys(d: Device)
    ensures DeviceDict(d).Keys <= {Group, Serial, Manufacturer, Model, Version, Name}
  {
    FillKeys(map[], DeviceEntries(d));
  }

  /** Entry i of the device declaration is stored when its text is not blank: the keys are distinct. */
  lemma DeviceStores(d: Device, i: nat)
    requires i < 6
    ensures var e := DeviceEntries(d)[i]; Holds(DeviceDict(d), e.key, e.value)
  {
    FillStores(map[], DeviceEntries(d), i);
  }

  /** A set device has its group, serial, model and name in the default declaration. */
  lemma SetDeviceDictHasIdentity(d: Device)
    requires DeviceIsSet(d)
    ensures var r := DeviceDict(d); Group in r && Serial in r && Model in r && Name in r
  {
    assert !Blank(d.group) && !Blank(d.serial) && !Blank(d.model) && !Blank(d.name);
    DeviceStores(d, 0);
    DeviceStores(d, 1);
    DeviceStores(d, 3);
    DeviceStores(d, 5);
  }

  /** The Home Assistant device block of a declaration (penistats.py:212-218). */
  datatype HADevice = HADevice(
    identifiers: seq<string>,
    manufacturer: Option<string>,
    model: Option<string>,
    name: Option<string>,
    swVersion: Option<string>)

  /** DeclareHADevice.__init__ (penistats.py:213-218): the device is identified by its base id. */
  function NewHADevice(d: Device): (r: HADevice)
    ensures r.identifiers == [BuildBaseId(d.group, d.serial)]
    ensures r.manufacturer == d.manufacturer && r.model == d.model
    ensures r.name == d.name && r.swVersion == d.version
  {
    HADevice([BuildBaseId(d.group, d.serial)], d.manufacturer, d.model, d.name, d.version)
  }

  /** DeclareHADevice.toDict (penistats.py:220-232): identifiers always, the other fields when not blank. */
  function HADeviceEntries(h: HADevice): seq<Entry> {
    [Entry(Manufacturer, h.manufacturer), Entry(Model, h.model), Entry(Name, h.name), Entry(SwVersion, h.swVersion)]
  }

  function HADeviceDict(h: HADevice): map<Field, Payload> {
    Fill(map[Identifiers := Texts(h.identifiers)], HADeviceEntries(h))
  }

  /** The device block always lists the identifiers, and the other fields exactly when not blank. */
  lemma HADeviceDictContents(h: HADevice)
    ensures var r := HADeviceDict(h);
      Identifiers in r && r[Identifiers] == Texts(h.identifiers) &&
      Holds(r, Manufacturer, h.manufacturer) && Holds(r, Model, h.model) &&
      Holds(r, Name, h.name) && Holds(r, SwVersion, h.swVersion)
  {
    var head := map[Identifiers := Texts(h.identifiers)];
    var es := HADeviceEntries(h);
    FillKeepsOthers(head, es, Identifiers);
    FillStores(head, es, 0);
    FillStores(head, es, 1);
    FillStores(head, es, 2);
    FillStores(head, es, 3);
  }

  /** The device block has no other key. */
  lemma HADeviceDictKeys(h: HADevice)
    ensures HADeviceDict(h).Keys <= {Identifiers, Manufacturer, Model, Name, SwVersion}
  {
    FillKeys(map[Identifiers := Texts(h.identifiers)], HADeviceEntries(h));
  }

  /** The Home Assistant discovery payload for one value (penistats.py:234-257). */
  datatype HAValue = HAValue(
    device: HADevice,
    enabledByDefault: bool,
    entityCategory: string,
    icon: string,
    jsonAttributesTopic: string,
    name: Option<string>,
    stateClass: string,
    stateTopic: string,
    uniqueId: string,
    unitOfMeasurement: Option<string>,
    valueTemplate: string)

  /** The icon chosen from the unit (penistats.py:239-245). */
  function IconFor(unit: Option<string>): (r: string)
    ensures r == "mdi:thermometer" <==> unit == Some("\U{B0}C") || unit == Some("\U{B0}F")
    ensures r == "mdi:memory" <==> unit == Some("kB")
    ensures r == "mdi:eye" <==> !(unit == Some("\U{B0}C") || unit == Some("\U{B0}F") || unit == Some("kB"))
  {
    if unit == Some("\U{B0}C") || unit == Some("\U{B0}F") then "mdi:thermometer"
    else if unit == Some("kB") then "mdi:memory"
    else "mdi:eye"
  }

  /**
   * DeclareHAValue.__init__ (penistats.py:235-257). `id + '_' + tag` raises
   * when the value has no tag: that case is None.
   */
  function NewHAValue(d: Device, v: DeclareValue): (r: Option<HAValue>)
    ensures r.None? <==> v.tag.None?
    ensures r.Some? ==> r.value.uniqueId == Fmt(d.group) + "_" + Fmt(d.serial) + "_" + v.tag.value
    ensures r.Some? ==> r.value.valueTemplate == "{{ value_json." + v.tag.value + " }}"
    ensures r.Some? ==> r.value.stateTopic == r.value.jsonAttributesTopic == Fmt(d.group) + "/" + Fmt(d.serial)
    ensures r.Some? ==> r.value.icon == IconFor(v.unit) && r.value.device == NewHADevice(d)
    ensures r.Some? ==> r.value.name == v.name && r.value.unitOfMeasurement == v.unit
    ensures r.Some? ==> r.value.enabledByDefault && r.value.entityCategory == "diagnostic" && r.value.stateClass == "measurement"
  {
    match v.tag
    case None => None
    case Some(tag) =>
      var topic := BuildValuesTopic(d.group, d.serial);
      var id := BuildBaseId(d.group, d.serial);
      assert id + "_" + tag == Fmt(d.group) + "_" + Fmt(d.serial) + "_" + tag;
      assert "{{ " + "value_json." + tag + " }}" == "{{ value_json." + tag + " }}";
      Some(HAValue(
        NewHADevice(d), true, "diagnostic", IconFor(v.unit), topic, v.name,
        "measurement", topic, id + "_" + tag, v.unit, "{{ " + "value_json." + tag + " }}"))
  }

  /** DeclareHAValue.toDict (penistats.py:259-283): the device block and the flag, then the text fields when not blank. */
  function HAValueEntries(h: HAValue): seq<Entry> {
    [Entry(EntityCategory, Some(h.entityCategory)), Entry(Icon, Some(h.icon)),
     Entry(JsonAttributesTopic, Some(h.jsonAttributesTopic)), Entry(Name, h.name),
     Entry(StateClass, Some(h.stateClass)), Entry(StateTopic, Some(h.stateTopic)),
     Entry(UniqueId, Some(h.uniqueId)), Entry(UnitOfMeasurement, h.unitOfMeasurement),
     Entry(ValueTemplate, Some(h.valueTemplate))]
  }

  function HAValueHead(h: HAValue): map<Field, Payload> {
    map[DeviceField := Dict(HADeviceDict(h.device)), EnabledByDefault := Flag(h.enabledByDefault)]
  }

  function HAValueDict(h: HAValue): map<Field, Payload> {
    Fill(HAValueHead(h), HAValueEntries(h))
  }

  /** Every field of the discovery payload, as toDict stores it. */
  lemma {:induction false} HAValueDictContents(h: HAValue)
    ensures var r := HAValueDict(h);
      DeviceField in r && r[DeviceField] == Dict(HADeviceDict(h.device)) &&
      EnabledByDefault in r && r[EnabledByDefault] == Flag(h.enabledByDefault) &&
      Holds(r, EntityCategory, Some(h.entityCategory)) && Holds(r, Icon, Some(h.icon)) &&
      Holds(r, JsonAttributesTopic, Some(h.jsonAttributesTopic)) && Holds(r, Name, h.name) &&
      Holds(r, StateClass, Some(h.stateClass)) && Holds(r, StateTopic, Some(h.stateTopic)) &&
      Holds(r, UniqueId, Some(h.uniqueId)) && Holds(r, UnitOfMeasurement, h.unitOfMeasurement) &&
      Holds(r, ValueTemplate, Some(h.valueTemplate))
  {
    var head := HAValueHead(h);
    var es := HAValueEntries(h);
    FillKeepsOthers(head, es, DeviceField);
    FillKeepsOthers(head, es, EnabledByDefault);
    HAValueStores(h, 0);
    HAValueStores(h, 1);
    HAValueStores(h, 2);
    HAValueStores(h, 3);
    HAValueStores(h, 4);
    HAValueStores(h, 5);
    HAValueStores(h, 6);
    HAValueStores(h, 7);
    HAValueStores(h, 8);
  }

  /** The discovery payload has no other key. */
  lemma HAValueDictKeys(h: HAValue)
    ensures HAValueDict(h).Keys <=
      {DeviceField, EnabledByDefault, EntityCategory, Icon, JsonAttributesTopic, Name,
       StateClass, StateTopic, UniqueId, UnitOfMeasurement, ValueTemplate}
  {
    FillKeys(HAValueHead(h), HAValueEntries(h));
  }

  /** Entry i of the payload is stored when its text is not blank: the keys are distinct and not in the head. */
  lemma HAValueStores(h: HAValue, i: nat)
    requires i < 9
    ensures var e := HAValueEntries(h)[i]; Holds(HAValueDict(h), e.key, e.value)
  {
    FillStores(HAValueHead(h), HAValueEntries(h), i);
  }

  /** The name and the unit appear in the discovery payload exactly when the value has them. */
  lemma HAPayloadOptionalFields(d: Device, v: DeclareValue)
    requires v.tag.Some?
    ensures var r := HAValueDict(NewHAValue(d, v).value);
      Holds(r, Name, v.name) && Holds(r, UnitOfMeasurement, v.unit)
  {
    var h := NewHAValue(d, v).value;
    HAValueStores(h, 3);
    HAValueStores(h, 7);
  }

  /** The fixed descriptive fields: enabled by default, diagnostic category, measurement class and the icon of the unit. */
  lemma HAPayloadFixedFields(d: Device, v: DeclareValue)
    requires v.tag.Some?
    ensures var r := HAValueDict(NewHAValue(d, v).value);
      EnabledByDefault in r && r[EnabledByDefault] == Flag(true) &&
      EntityCategory in r && StateClass in r && Icon in r &&
      r[EntityCategory] == Text("diagnostic") && r[StateClass] == Text("measurement") &&
      r[Icon] == Text(IconFor(v.unit))
  {
    var h := NewHAValue(d, v).value;
    FlagStored(h);
    FixedTextsStored(h);
  }

  /** The enabled_by_default flag of a payload is stored as it is. */
  lemma FlagStored(h: HAValue)
    ensures EnabledByDefault in HAValueDict(h) && HAValueDict(h)[EnabledByDefault] == Flag(h.enabledByDefault)
  {
    FillKeepsOthers(HAValueHead(h), HAValueEntries(h), EnabledByDefault);
  }

  /** The three fixed texts of a payload are stored as they are. */
  lemma FixedTextsStored(h: HAValue)
    requires h.entityCategory == "diagnostic" && h.stateClass == "measurement"
    requires h.icon != [] && !IsSpace(h.icon[0])
    ensures var r := HAValueDict(h);
      EntityCategory in r && StateClass in r && Icon in r &&
      r[EntityCategory] == Text("diagnostic") && r[StateClass] == Text("measurement") && r[Icon] == Text(h.icon)
  {
    HAValueStores(h, 0);
    HAValueStores(h, 1);
    HAValueStores(h, 4);
    NotBlankAt(h.entityCategory, 0);
    NotBlankAt(h.stateClass, 0);
    NotBlankAt(h.icon, 0);
  }

  /** Both topics of the payload are the values topic of the device, where the values message goes. */
  lemma HAPayloadTopics(d: Device, v: DeclareValue)
    requires v.tag.Some?
    ensures var r := HAValueDict(NewHAValue(d, v).value);
      StateTopic in r && JsonAttributesTopic in r &&
      r[StateTopic] == r[JsonAttributesTopic] == Text(BuildValuesTopic(d.group, d.serial))
  {
    var h := NewHAValue(d, v).value;
    HAValueStores(h, 2);
    HAValueStores(h, 5);
    NotBlankAt(h.stateTopic, |Fmt(d.group)|);
  }

  /** The unique id is the base id of the device followed by the tag, and the template reads the tag from the values message. */
  lemma HAPayloadIdentity(d: Device, v: DeclareValue)
    requires v.tag.Some?
    ensures var r := HAValueDict(NewHAValue(d, v).value);
      UniqueId in r && ValueTemplate in r &&
      r[UniqueId] == Text(BuildBaseId(d.group, d.serial) + "_" + v.tag.value) &&
      r[ValueTemplate] == Text("{{ value_json." + v.tag.value + " }}")
  {
    var h := NewHAValue(d, v).value;
    HAValueStores(h, 6);
    HAValueStores(h, 8);
    NotBlankAt(h.uniqueId, |Fmt(d.group)|);
    NotBlankAt(h.valueTemplate, 0);
  }

  /** A string with one non-space character is not blank. */
  lemma NotBlankAt(s: string, i: nat)
    requires i < |s| && !IsSpace(s[i])
    ensures !Blank(Some(s))
  {
    AllSpaceAt(s);
  }

  /** One publish the declaration hands to the MQTT client; every declaration is retained. */
  datatype Publish = Publish(topic: string, payload: Payload, retain: bool)

  /** The discovery topic of one value (penistats.py:443). */
  function HATopic(d: Device, v: DeclareValue): string {
    "homeassistant/sensor/" + Fmt(d.serial) + "/" + Fmt(v.tag) + "/config"
  }

  /**
   * declareValues2HAMqtt (penistats.py:439-447): one retained discovery
   * message per value, in order; a value without a tag raises and ends the loop.
   */
  function DeclareToHA(d: Device, values: seq<DeclareValue>): (r: seq<Publish>)
    ensures |r| <= |values|
    ensures (forall i | 0 <= i < |values| :: values[i].tag.Some?) ==> |r| == |values|
    ensures forall i | 0 <= i < |r| ::
      values[i].tag.Some? &&
      r[i] == Publish(HATopic(d, values[i]), Dict(HAValueDict(NewHAValue(d, values[i]).value)), true)
    ensures |r| < |values| ==> values[|r|].tag.None?
  {
    if values == [] then []
    else
      match NewHAValue(d, values[0])
      case None => []
      case Some(h) => [Publish(HATopic(d, values[0]), Dict(HAValueDict(h)), true)] + DeclareToHA(d, values[1..])
  }

  /** The default declaration topics (penistats.py:450, 454 and 458). */
  function DeviceTopic(d: Device): string {
    "declare/" + BuildValuesTopic(d.group, d.serial) + "/device"
  }

  function ValueTopic(d: Device, v: DeclareValue): string {
    "declare/" + BuildValuesTopic(d.group, d.serial) + "/value/" + Fmt(v.tag)
  }

  /**
   * declareValues2DefaultMqtt (penistats.py:449-458): the device first, then
   * one retained message per value, in order.
   */
  function DeclareToDefault(d: Device, values: seq<DeclareValue>): (r: seq<Publish>)
    ensures |r| == |values| + 1
    ensures r[0] == Publish(DeviceTopic(d), Dict(DeviceDict(d)), true)
    ensures forall i | 0 <= i < |values| :: r[i + 1] == Publish(ValueTopic(d, values[i]), Dict(ValueDict(values[i])), true)
  {
    [Publish(DeviceTopic(d), Dict(DeviceDict(d)), true)] +
    seq(|values|, i requires 0 <= i < |values| => Publish(ValueTopic(d, values[i]), Dict(ValueDict(values[i])), true))
  }

  /** Two strings that differ only between a shared prefix and a shared suffix differ there. */
  lemma {:induction false} InfixInjective(p: string, a: string, b: string, q: string)
    ensures p + a + q == p + b + q ==> a == b
  {
    if p + a + q == p + b + q {
      var s := p + a + q;
      assert |a| == |b|;
      assert a == s[|p|..|p| + |a|];
      assert b == (p + b + q)[|p|..|p| + |b|];
    }
  }

  /** Values with different tags get different discovery topics, so no retained declaration replaces another. */
  lemma HATopicsDistinct(d: Device, v: DeclareValue, w: DeclareValue)
    requires v.tag.Some? && w.tag.Some? && v.tag != w.tag
    ensures HATopic(d, v) != HATopic(d, w)
  {
    var p := "homeassistant/sensor/" + Fmt(d.serial) + "/";
    assert HATopic(d, v) == p + v.tag.value + "/config";
    assert HATopic(d, w) == p + w.tag.value + "/config";
    InfixInjective(p, v.tag.value, w.tag.value, "/config");
  }

  /** In the default declaration, values with different tags get different topics, and none is the device topic. */
  lemma DefaultTopicsDistinct(d: Device, v: DeclareValue, w: DeclareValue)
    requires v.tag.Some? && w.tag.Some?
    ensures v.tag != w.tag ==> ValueTopic(d, v) != ValueTopic(d, w)
    ensures ValueTopic(d, v) != DeviceTopic(d)
  {
    var p := "declare/" + BuildValuesTopic(d.group, d.serial) + "/";
    assert ValueTopic(d, v) == p + "value/" + v.tag.value + [];
    assert ValueTopic(d, w) == p + "value/" + w.tag.value + [];
    InfixInjective(p + "value/", v.tag.value, w.tag.value, []);
    assert DeviceTopic(d) == p + "device";
    assert ValueTopic(d, v)[|p|] == 'v' && DeviceTopic(d)[|p|] == 'd';
  }

  /** Values whose texts are already stripped are stored as given. */
  lemma NewOfTrimmed(name: string, unit: string, tag: string)
    requires Trimmed(name) && Trimmed(unit) && Trimmed(tag)
    ensures NewDeclareValue(Some(name), Some(unit), Some(tag)) == DeclareValue(Some(name), Some(unit), Some(tag))
  {
    StripKeepsTrimmed(name);
    StripKeepsTrimmed(unit);
    StripKeepsTrimmed(tag);
  }

  /** The name, unit and tag of each of the seven values declareValues declares (penistats.py:493-499). */
  function StandardTexts(): seq<(string, string, string)> {
    [("cpu temperature", "\U{B0}C", "cpuTempC"),
     ("cpu frequency", "GHz", "cpuFreqGHz"),
     ("memory total", "kB", "memTotalKB"),
     ("memory free", "kB", "memFreeKB"),
     ("memory available", "kB", "memAvailKB"),
     ("swap total", "kB", "swapTotalKB"),
     ("swap free", "kB", "swapFreeKB")]
  }

  /** The seven DeclareValue objects, in order. */
  function StandardDeclarations(): (r: seq<DeclareValue>)
    ensures |r| == |StandardTexts()|
  {
    var texts := StandardTexts();
    seq(|texts|, i requires 0 <= i < |texts| => NewDeclareValue(Some(texts[i].0), Some(texts[i].1), Some(texts[i].2)))
  }

  /** The seven tags are pairwise different: they differ in length or in their fourth character. */
  lemma StandardTagsDistinct()
    ensures forall i, j | 0 <= i < j < |StandardTexts()| :: StandardTexts()[i].2 != StandardTexts()[j].2
  {
    var texts := StandardTexts();
    var sizes, fourths := [8, 10, 10, 9, 10, 11, 10], "TFTFApp";
    assert forall i | 0 <= i < 7 :: |texts[i].2| == sizes[i] && texts[i].2[3] == fourths[i];
    forall i, j | 0 <= i < j < 7
      ensures texts[i].2 != texts[j].2
    {
      assert sizes[i] != sizes[j] || fourths[i] != fourths[j];
    }
  }

  /** None of the seven texts starts or ends with whitespace. */
  lemma StandardTextsTrimmed()
    ensures forall i | 0 <= i < |StandardTexts()| ::
      Trimmed(StandardTexts()[i].0) && Trimmed(StandardTexts()[i].1) && Trimmed(StandardTexts()[i].2)
  {
  }

  /** Stripping changes none of the seven texts, and the seven tags are set and pairwise different. */
  lemma StandardDeclarationsStripped()
    ensures forall i | 0 <= i < 7 ::
      var t := StandardTexts()[i];
      StandardDeclarations()[i] == DeclareValue(Some(t.0), Some(t.1), Some(t.2))
    ensures forall i, j | 0 <= i < j < 7 :: StandardDeclarations()[i].tag != StandardDeclarations()[j].tag
  {
    var texts := StandardTexts();
    StandardTextsTrimmed();
    StandardTagsDistinct();
    forall i | 0 <= i < 7
      ensures StandardDeclarations()[i] == DeclareValue(Some(texts[i].0), Some(texts[i].1), Some(texts[i].2))
    {
      NewOfTrimmed(texts[i].0, texts[i].1, texts[i].2);
    }
  }
}
