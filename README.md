# penistats in Dafny

penistats is a small Python daemon. It reads CPU, memory and swap figures from
a Raspberry Pi-like Linux host and publishes them over MQTT. Every twelve hours
it also publishes retained *declaration* messages, so that a consumer knows
which device and which values to expect. A Home Assistant broker gets
MQTT-discovery payloads instead.

This project models the logic of `penistats.py` and proves properties of it.

- **Settings.** Loading the settings dictionary into `DeviceSettings`,
  `ScheduleSettings`, `MqttSettings` and `Settings`. Modelled in
  `settings.dfy`, module `SettingsModel`.
  - `DeviceSettings` and `Settings` are classes, because they are repaired in
    place. The schedule and MQTT settings are values.
  - The `isSet` completeness checks are modelled.
  - So is the choice between the loop, the single shot with settings and the
    single shot without settings, made once at startup.
- **Identity repair.** `fixDeviceSettings` and `fixSettings`, in
  `device_repair.dfy`, module `DeviceRepair`.
  - The group is normalised, with a default.
  - A blank serial or model is filled from `/proc/cpuinfo`.
  - A blank version is filled from `/proc/version`.
  - The name comes from the host-name services.
  - The serial is then reduced to letters and digits, and the manufacturer is
    derived from a Raspberry model.
  - The repair is a specification function, `FixDevice`. The methods on the
    `DeviceSettings` object are proved against it. So is the line-by-line
    cpuinfo loop.
- **Memory figures.** The `/proc/meminfo` loop of `readValues`, in
  `meminfo.dfy`, module `Meminfo`. Each line is classified, and the loop is
  proved to be a scan over those classifications.
- **Declaration messages.** In `declare.dfy`, module `Declare`:
  - the `DeclareValue`, `DeclareHADevice` and `DeclareHAValue` payloads and
    their `toDict` dictionaries;
  - the Home Assistant discovery topic and the default `declare/...` topics;
  - the list of retained publishes that `declareValues2HAMqtt` and
    `declareValues2DefaultMqtt` hand to the MQTT client.
- **Throttle.** In `throttle.dfy`, module `Throttle`:
  - the throttle of `declareValues`, through a `Declarer` object that holds the
    global `declareTstamp`;
  - the seven standard values;
  - the fan-out to every configured broker.
- **Support modules.**
  - `tools.dfy`, module `Tools`: `isStringEmpty`, `str.strip`, `isalnum`
    filtering, `buildBaseId` and `buildValuesTopic`.
  - `json.dfy`: the JSON value the settings file parses into.
  - `wrappers.dfy`: `Option` and `Result`.

What the host provides is passed in as values:

- the lines of `/proc/cpuinfo`;
- the text of `/proc/version`;
- the node name, the host name and the reverse lookup;
- the lines of `/proc/meminfo`;
- the current time.

Where the program would publish, the model returns the list of publishes.

The model follows the code as written; in particular:

- **cpuinfo lookup.** When several `/proc/cpuinfo` lines match, the *last*
  one wins, because the loop does not stop at the first match. A matching
  line without a colon raises and ends the scan.
- **Host lookup.** A failing `gethostbyaddr` is not caught. `FixDevice`
  returns `None` and `FixSettings` returns false in that case.
- **meminfo parsing.** A meminfo line without a colon ends the scan. A line
  with an unparsable value ends it only when the line is about one of the five
  recognised keys, because `int()` is called only there.
- **MQTT completeness.** An MQTT destination is complete when it has both a
  hostname and a port.
- **Zero destinations.** A set device is declared, and the timestamp
  refreshed, even when there are no MQTT destinations.
- **Values that are not objects.** The constructors test each key with
  `in` before reading it. On a list that is a membership test and on a string
  a substring test, so a list or string that holds none of the key names
  loads as an empty dictionary would, and one that holds a key name fails
  when it is indexed. A number or a boolean makes `in` raise. `Entries`
  models this for every constructor. The `mqtts` loop iterates whatever it
  is given: the items of a list, the characters of a string, the keys of an
  object.
- **The `model` key.** `DeviceSettings.__init__` stores the `model` key of
  the settings file into `serial` (penistats.py:76-77). The model keeps this
  behaviour as written. `ParseDevice` proves that a loaded device never has a
  model and that its serial comes from the `model` key whenever that key is
  present.

## Model

| member | source | states |
|---|---|---|
| Tools.IsStringEmpty | penistats.py:29-30 | the result is true exactly for None or a string made only of whitespace |
| Tools.Strip | penistats.py:30 | the result is the text of the input that follows its leading whitespace, with only whitespace before and after it in the input; it is empty iff the input is all whitespace, and otherwise starts and ends with non-space |
| Tools.StripIdempotent | penistats.py:197-200 | stripping twice is stripping once |
| Tools.FilterAlnum | penistats.py:314 | the result holds only letters and digits; it leaves an all-alphanumeric string unchanged and turns a blank one into empty |
| Tools.FilterAlnumKeeps | penistats.py:314 | a character is in the result iff it is a letter or digit of the input |
| Tools.FilterAlnumConcat | penistats.py:314 | filtering keeps order: the filtered concatenation is the concatenation of the filtered parts |
| Tools.BuildBaseId | penistats.py:32-33 | the id is the formatted group, then an underscore, then the formatted serial (None formats as "None") |
| Tools.BuildValuesTopic | penistats.py:35-36 | the topic is the formatted group, then a slash, then the formatted serial |
| Tools.BaseIdInjective | penistats.py:32-36 | for alphanumeric groups (as the repair leaves them), two devices share a base id, or a values topic, iff their group and serial agree |
| Tools.IndexOf | penistats.py:415 | None iff the character is absent; otherwise the first index where it occurs |
| Tools.FilterNumeric | penistats.py:418 | the result holds only digits and dots and is no longer than its input |
| Tools.FilterNumericKeeps | penistats.py:418 | a character is in the result iff it is a digit or a dot of the input |
| Tools.FilterNumericConcat | penistats.py:418 | filtering distributes over concatenation, so the digits and dots are kept in order |
| Tools.ParseDigits | penistats.py:420 | int() of the filtered value succeeds iff it is a non-empty run of digits, and is then the number those digits spell |
| Tools.ParseInt | penistats.py:144 | int() of a string succeeds iff its stripped text is a non-empty run of decimal digits, optionally after one '+' or '-'; the value is that of the digits, negated after '-' |
| Tools.ParseIntRoundTrip | penistats.py:144 | int(str(n)) == n for every integer n: a port written in decimal is read back as itself |
| SettingsModel.PyInt | penistats.py:144 | int() of a null, list or object fails; of an integer it is that integer, of a boolean 0 or 1; of a string it succeeds iff the stripped text is a digit run after at most one sign, and is then ParseInt's value |
| SettingsModel.AsString | penistats.py:141-154 | a string attribute loads iff the JSON value is a string or null |
| SettingsModel.Entries | penistats.py:69-81 | the keys a constructor sees: none for null, the object's own for an object; a list or a string gives none when no key is an item or a substring of it, and fails otherwise (the lookup raises); a number or a boolean fails (`in` raises) |
| SettingsModel.ParseDevice | penistats.py:60-81 | null gives the empty device, and so does a list or string in which no device key occurs (it fails when one does); a number or boolean fails; an object loads iff every device key it has holds a string or null, where of 'serial' and 'model' only the one stored counts; the loaded model is always None and the serial comes from the 'model' key when present, else from 'serial'; the other fields are their keys |
| SettingsModel.ParseEvery | penistats.py:107-113 | null, or a list or string without 'minutes' in it, gives no minutes; a number or boolean fails; an integer 'minutes' is stored, a boolean one as 1 or 0; a missing or null one stays None |
| SettingsModel.ParseSchedule | penistats.py:118-124 | null, or a list or string without 'every' in it, gives no 'every'; a number or boolean fails; an object without 'every' gives no 'every'; an object with 'every' loads it through ScheduleEverySettings and fails iff that one does |
| SettingsModel.ParseMqtt | penistats.py:129-159 | null, or a list or string in which no key occurs, gives the destination with only the generated id; a number or boolean fails; an object loads iff hostname, clientId, username, password and caCertsPath each hold a string or null and a port present passes int(); hostname, username, password, caCertsPath, topic as found, 'port' through int() and 'isHA' through bool() come from their keys; a blank clientId is replaced by the generated id |
| SettingsModel.ParseMqtts | penistats.py:175-177 | the list loads iff every entry loads, with one MqttSettings per entry in order |
| SettingsModel.ParseMqttList | penistats.py:175-177 | a list loads entry by entry, a string character by character; an object loads one destination per key, each with only its generated id, and fails iff a key holds a key name; null, a number or a boolean fails |
| SettingsModel.StringMqttsAreDefaults | penistats.py:175-177 | a string under 'mqtts' always loads, one destination per character, each with only its generated id |
| SettingsModel.ParseSettings | penistats.py:164-177 | null, or a list or string in which no settings key occurs, gives empty settings; a number or boolean fails; an object loads iff the device, schedule and 'mqtts' it has each load, and then device and schedule are present iff their keys are, each the result of its own constructor, and the destinations are those of iterating 'mqtts' |
| SettingsModel.DeviceIsSet | penistats.py:83-89 | true iff group, serial, model and name are all not blank |
| SettingsModel.MqttIsSet | penistats.py:161-162 | true iff the destination has a hostname and a port; client id, credentials and flag play no part |
| SettingsModel.EveryIsSet | penistats.py:115-116 | true iff minutes is present, whatever its value |
| SettingsModel.ScheduleIsSet | penistats.py:126-127 | true iff there is an 'every' part whose minutes are present |
| SettingsModel.LoadedDeviceNotSet | penistats.py:60-89 | a device just loaded is never set, as its model is None |
| SettingsModel.LoadedMqttSet | penistats.py:129-162 | a loaded destination is set iff the document gave it a hostname string and a port |
| SettingsModel.LoadedScheduleSet | penistats.py:107-127 | a loaded schedule is set iff the document gave an 'every' object with a non-null 'minutes' |
| SettingsModel.AllMqttsSet | penistats.py:188-192 | true iff every destination has a hostname and a port |
| SettingsModel.SettingsIsSet | penistats.py:179-194 | true iff the device exists and its group, serial, model and name are not blank, and every destination is set |
| SettingsModel.ChooseRunMode | penistats.py:568-589 | single shot without settings iff settings are missing or not set; the loop iff they are set with a set schedule, registering the job only for a positive period; single shot with settings otherwise |
| SettingsModel.DeviceSettings.constructor | penistats.py:60-81 | the object holds the attributes of the given device |
| SettingsModel.Settings.constructor | penistats.py:165-168 | no device, no schedule and no destinations |
| SettingsModel.Settings.AppendMqtts | penistats.py:175-177 | succeeds iff ParseMqttList succeeds, and the destinations then are its result |
| SettingsModel.Settings.AppendItems | penistats.py:175-177 | the loop over a list or the characters of a string succeeds iff ParseMqtts does, and leaves its result |
| SettingsModel.Settings.AppendKeys | penistats.py:175-177 | the loop over the keys of an object succeeds iff ParseMqttList does, and leaves its result |
| SettingsModel.ReadSettings | penistats.py:298-307 | None iff loading raises; otherwise a fresh Settings whose value is ParseSettings of the document |
| DeviceRepair.RepairGroup | penistats.py:313-316 | the group becomes its letters and digits, or "penistats" when none are left; it is never empty and always alphanumeric |
| DeviceRepair.ValueAfterColon | penistats.py:327 | None exactly when the line has no colon (line.index raises) |
| DeviceRepair.ValueFollowsFirstColon | penistats.py:327 | the value is the stripped text after the first colon of the line |
| DeviceRepair.ClassifyCpuLine | penistats.py:324-329 | no line is about both serial and model |
| DeviceRepair.CpuinfoLastMatchWins | penistats.py:320-331 | a sought field ends with the value of the last line about it before the first line that raises; an unsought field, or one no line is about, keeps its value |
| DeviceRepair.ResolveName | penistats.py:340-346 | a set name is kept; a blank one becomes the nodename when that is not blank, else the hostname when it holds a dot, else the reverse lookup; fails iff all are unavailable and the lookup raises |
| DeviceRepair.FixDevice | penistats.py:309-355 | fails iff the name lookup raises; the group is non-empty and alphanumeric; the serial is alphanumeric; a set serial is filtered and a set model and name kept; the manufacturer is derived from a Raspberry model only when blank; the version is read when blank and stripped; the name is ResolveName's |
| DeviceRepair.CpuinfoFillsBlankFields | penistats.py:318-331 | a blank serial (model) takes the value of the last cpuinfo line about it, the serial then filtered to letters and digits |
| DeviceRepair.ReadCpuinfoLine | penistats.py:324-329 | one loop pass updates serial and model as one CpuStep and goes on iff it does not raise |
| DeviceRepair.ReadCpuinfo | penistats.py:320-331 | the loop leaves serial and model as ScanCpuinfo of the classified lines |
| DeviceRepair.RepairGroupInPlace | penistats.py:313-316 | only the group changes, to RepairGroup of the old group |
| DeviceRepair.RepairIdentity | penistats.py:313-338 | the device becomes RepairBeforeName of its old value |
| DeviceRepair.CleanUpIdentity | penistats.py:348-355 | the device becomes RepairAfterName of its old value |
| DeviceRepair.FixDeviceSettings | penistats.py:309-355 | succeeds iff FixDevice does, and the object then holds FixDevice's result; on failure the steps before the name have been applied |
| DeviceRepair.FixSettings | penistats.py:357-363 | null settings pass through; otherwise a device exists afterwards (a fresh one if there was none), schedule and mqtts are unchanged, and the device is FixDevice of the old one |
| Meminfo.Set | penistats.py:419-428 | assigning one memory field changes that field and no other |
| Meminfo.KeyOfMatchesPrefix | penistats.py:419-428 | the elif chain picks key k iff the lower-cased line starts with k's prefix, whatever the order |
| Meminfo.LineAssigns | penistats.py:414-428 | a line sets field k to n iff it has a colon, starts with k's prefix after strip and lower-casing, and its filtered value parses to n |
| Meminfo.LineStops | penistats.py:414-428 | a line ends the scan iff it has no colon, or it starts (case-insensitively, after strip) with one of the five key prefixes and its value does not parse; a line with a colon and no known prefix never ends it |
| Meminfo.StopIndex | penistats.py:411-430 | the index of the first line that ends the scan, or the length when none does |
| Meminfo.ScanLastLineWins | penistats.py:411-430 | each field ends with the value of the last line that set it before the scan ended, or keeps its value |
| Meminfo.ScanIgnoresRest | penistats.py:411-430 | lines after the one that ends the scan change nothing |
| Meminfo.ReadMeminfoLine | penistats.py:414-428 | one pass stops iff the line ends the scan, and otherwise applies its assignment |
| Meminfo.ReadMeminfo | penistats.py:411-430 | the loop computes Scan of the line effects: every field is the last value set before the scan ended |
| Declare.NewDeclareValue | penistats.py:196-200 | each field is present iff given, and is then the given text stripped, neither starting nor ending with whitespace |
| Declare.NewDeclareValueIdempotent | penistats.py:196-200 | rebuilding a DeclareValue from its own fields gives it back |
| Declare.ValueDictContents | penistats.py:202-210 | the dictionary holds name, unit and tag exactly when not blank, with their texts |
| Declare.ValueDictKeys | penistats.py:202-210 | no other key appears |
| Declare.DeviceDictContents | penistats.py:91-105 | the device dictionary holds each of the six attributes exactly when not blank, with its text |
| Declare.DeviceDictKeys | penistats.py:91-105 | no other key appears |
| Declare.SetDeviceDictHasIdentity | penistats.py:83-105 | a set device's dictionary has group, serial, model and name |
| Declare.NewHADevice | penistats.py:212-218 | the identifiers are the single base id; the other fields are copied from the device, version as sw_version |
| Declare.HADeviceDictContents | penistats.py:220-232 | the identifiers are always present; manufacturer, model, name and sw_version exactly when not blank |
| Declare.HADeviceDictKeys | penistats.py:220-232 | no other key appears |
| Declare.IconFor | penistats.py:239-245 | thermometer iff the unit is °C or °F, memory iff it is kB, eye otherwise |
| Declare.NewHAValue | penistats.py:234-257 | fails iff the value has no tag; unique id, value template, both topics, icon, device, name and unit as built from the device and value; enabled by default, diagnostic category and measurement class |
| Declare.HAValueDictContents | penistats.py:259-283 | the device block and the flag are always present; every text field is present exactly when not blank |
| Declare.HAValueDictKeys | penistats.py:259-283 | the discovery payload has no key beyond the device block, the flag and the nine text fields |
| Declare.HAPayloadOptionalFields | penistats.py:252-280 | the payload has name and unit_of_measurement exactly when the value has them |
| Declare.HAPayloadFixedFields | penistats.py:239-274 | enabled_by_default is true, entity_category "diagnostic", state_class "measurement" and the icon that of the unit |
| Declare.HAPayloadTopics | penistats.py:236-276 | state_topic and json_attributes_topic are both the device's values topic |
| Declare.HAPayloadIdentity | penistats.py:237-282 | unique_id is the base id then the tag; value_template reads the tag |
| Declare.DeclareToHA | penistats.py:439-447 | one retained discovery message per value, in order, on the value's config topic, up to the first value without a tag, which is the value where the list stops short |
| Declare.DeclareToDefault | penistats.py:449-458 | the retained device message first on declare/<group>/<serial>/device, then, in order, one retained message per value on its declare/.../value/<tag> topic carrying its dictionary |
| Declare.HATopicsDistinct | penistats.py:443-444 | values with different tags get different discovery topics |
| Declare.DefaultTopicsDistinct | penistats.py:450-458 | values with different tags get different topics, and none is the device topic |
| Declare.StandardDeclarations | penistats.py:492-499 | seven values, one per entry of the standard table |
| Declare.StandardDeclarationsStripped | penistats.py:492-499 | each standard value is its texts unchanged by strip, and no two share a tag |
| Throttle.ShouldDeclare | penistats.py:486-490 | declares iff the device is set and there is no timestamp or more than twelve hours have passed |
| Throttle.DeclarationsApart | penistats.py:483-510 | over any run of calls, successive declarations are more than twelve hours apart |
| Throttle.FirstDeclarationAfterStamp | penistats.py:488-490 | the first declaration is more than twelve hours after the starting timestamp |
| Throttle.DeclarationsAtCalls | penistats.py:483-510 | every declaration happens at one of the calls |
| Throttle.UnsetDeviceNeverDeclared | penistats.py:486-487 | an unset device is never declared |
| Throttle.DeclarationComplete | penistats.py:460-467 | for values with distinct tags, a Home Assistant destination gets one message per value and another destination one more; all retained, all on distinct topics |
| Throttle.StandardDeclarationComplete | penistats.py:492-504 | each destination gets seven (Home Assistant) or eight retained messages on distinct topics |
| Throttle.DeclareToAll | penistats.py:501-504 | one delivery per destination, in order, each with the declaration of its kind |
| Throttle.Declarer.constructor | penistats.py:563 | no timestamp yet |
| Throttle.Declarer.DeclareValues | penistats.py:483-510 | declares iff ShouldDeclare; then every destination gets its declaration of the standard values and the stamp becomes now; otherwise nothing is sent and the stamp is unchanged |

## Left out

- The MQTT client is not modelled: `buildMqttClient`, connecting, the `on_connect` callbacks, `loop_start`/`loop_stop` and `disconnect`. A delivery is what the callback would publish once the connection succeeds. A failed connection or a refused publish is not modelled.
- `sendValues`, `sendValues2Mqtt`, `readAndSendValues`, `dispValues` and `dispSettings` are not modelled. They print or publish the measured values. Two decisions in them are left out with them:
  - `sendValues` displays the values instead of publishing them when there are no destinations, and always returns true (penistats.py:534-546).
  - `sendValues2Mqtt` publishes nothing and returns false unless the global settings are set (penistats.py:513-514). Otherwise it publishes the values to the values topic once connected (penistats.py:518).
- The `schedule` library loop, `time.sleep` and the five-second wait are not modelled. `ChooseRunMode` records which mode starts and which period is registered.
- File I/O is not modelled. The contents of `/proc/cpuinfo`, `/proc/version` and `/proc/meminfo` and the settings document are parameters. A file that cannot be opened is an empty list of lines, or `None` for `/proc/version`.
- `json.load` and `json.dumps` are not modelled. The settings document is a `Json` value. The payloads are maps keyed by field, so key order and the serialised text are not modelled.
- The CPU temperature and frequency in `readValues` are left out. They are floating-point divisions of one number read from a file.
- `uuid.uuid4()` is a parameter giving one id per destination. `os.uname`, `socket.gethostname` and `socket.gethostbyaddr` are fields of `HostInfo`.
- Character classes are ASCII: `str.isalnum`, `str.isdigit` and `str.lower` on non-ASCII text are not modelled. Whitespace is the set `str.isspace` accepts.
- SettingsModel.PyInt: models `int()` on JSON integers, booleans, and strings of ASCII digits with an optional sign and surrounding whitespace. Floats and digit-group underscores are not modelled.
- SettingsModel.ParseDevice: a value that is not a string or null under a device key is a load error, so readSettings gives None. The program stores it, and then the strip() in isStringEmpty raises inside fixSettings and ends the program.
- SettingsModel.ParseMqtt: a value that is not a string or null under 'hostname', 'username', 'password' or 'caCertsPath' is a load error. The program stores it. The destination then counts as set when its hostname is not None and 'port' is present (penistats.py:161-162); a non-string hostname is not None. A non-string 'password' then makes `dispSettings` raise at startup (penistats.py:389), which is reached once the settings are set (penistats.py:568, 575 and 581). A non-string 'hostname', 'username' or 'caCertsPath' would fail only when the MQTT client is built or connects, which is not modelled. A 'clientId' that is not a string or null raises in the constructor in the program too.
- SettingsModel.ParseEvery: a string, list or object under 'minutes' is a load error. The program stores it and counts the schedule as set. When the settings as a whole are set (penistats.py:568), the startup comparison with 0 then raises (penistats.py:571). When they are not, the program runs single shot without settings, as the model does after the load error.
- SettingsModel.ParseMqttList: the keys of an object under 'mqtts' are taken in the order the model picks. Every key gives a destination with no keys, so the order only decides which generated id goes with which key.
- JSON floating-point numbers are not modelled: `Json` has no float case. The program would truncate a float 'port' through int() and compare a float 'minutes'.
- Throttle.ShouldDeclare: time is whole seconds in an integer `now`. The program compares floating-point seconds, reads the clock twice, and stamps after the fan-out.
- Throttle.Declarer.DeclareValues: a client that raises while it is built (`tls_set` with the configured CA file, penistats.py:295) or while it connects (penistats.py:480) is not modelled. In the program that exception leaves `declareValues` before the timestamp is set (penistats.py:506), and the destinations after it get nothing; the model always delivers to every destination and stamps `now`.
- Throttle.Declarer.DeclareValues: the delivery list holds what each destination would publish. Whether `declareValues2Mqtt` returns true, and so whether the program sleeps, is not modelled, because it always does.
