/**
 * declareValues: the declarations are sent at most once every twelve hours,
 * and only for a device whose identity is complete. The global declareTstamp
 * becomes the field `stamp` of a Declarer; time.time() becomes the parameter
 * `now`, in whole seconds.
 */
module Throttle {
  import opened Wrappers
  import opened Tools
  import opened SettingsModel
  import opened Declare

  /** Twelve hours, in seconds: the window during which a declaration is not repeated. */
  const DeclarePeriod: int := 12 * 3600

  /**
   * The two early returns of declareValues (penistats.py:486-490): no
   * declaration without a set device, nor within the window of the last one.
   */
  function ShouldDeclare(device: Option<Device>, stamp: Option<int>, now: int): (r: bool)
    ensures r ==> device.Some? && !Blank(device.value.group) && !Blank(device.value.serial) &&
                  !Blank(device.value.model) && !Blank(device.value.name)
    ensures r ==> stamp.None? || now > stamp.value + 43200
    ensures device.Some? && DeviceIsSet(device.value) && (stamp.None? || now > stamp.value + 43200) ==> r
  {
    if device.None? || !DeviceIsSet(device.value) then false
    else if stamp.Some? && now - stamp.value <= DeclarePeriod then false
    else true
  }

  /** The times at which declareValues declares when it is called at `times`, starting from the timestamp `stamp`. */
  function Declarations(device: Option<Device>, stamp: Option<int>, times: seq<int>): seq<int>
    decreases |times|
  {
    if times == [] then []
    else if ShouldDeclare(device, stamp, times[0]) then [times[0]] + Declarations(device, Some(times[0]), times[1..])
    else Declarations(device, stamp, times[1..])
  }

  /** The first declaration is more than twelve hours after the starting timestamp. */
  lemma {:induction false} FirstDeclarationAfterStamp(device: Option<Device>, stamp: int, times: seq<int>)
    ensures Declarations(device, Some(stamp), times) != [] ==>
              Declarations(device, Some(stamp), times)[0] - stamp > DeclarePeriod
    decreases |times|
  {
    if times != [] && !ShouldDeclare(device, Some(stamp), times[0]) {
      FirstDeclarationAfterStamp(device, stamp, times[1..]);
    }
  }

  /** Over any run of calls, two successive declarations are more than twelve hours apart. */
  lemma {:induction false} DeclarationsApart(device: Option<Device>, stamp: Option<int>, times: seq<int>)
    ensures forall i | 0 <= i < |Declarations(device, stamp, times)| - 1 ::
              Declarations(device, stamp, times)[i + 1] - Declarations(device, stamp, times)[i] > DeclarePeriod
    decreases |times|
  {
    if times != [] {
      var rest := times[1..];
      if ShouldDeclare(device, stamp, times[0]) {
        DeclarationsApart(device, Some(times[0]), rest);
        FirstDeclarationAfterStamp(device, times[0], rest);
        var tail := Declarations(device, Some(times[0]), rest);
        var ds := [times[0]] + tail;
        assert Declarations(device, stamp, times) == ds;
        assert forall i | 1 <= i < |ds| :: ds[i] == tail[i - 1];
      } else {
        DeclarationsApart(device, stamp, rest);
        assert Declarations(device, stamp, times) == Declarations(device, stamp, rest);
      }
    }
  }

  /** Every declaration happens at one of the calls. */
  lemma {:induction false} DeclarationsAtCalls(device: Option<Device>, stamp: Option<int>, times: seq<int>)
    ensures forall t | t in Declarations(device, stamp, times) :: t in times
    decreases |times|
  {
    if times != [] {
      var rest := times[1..];
      if ShouldDeclare(device, stamp, times[0]) {
        DeclarationsAtCalls(device, Some(times[0]), rest);
      } else {
        DeclarationsAtCalls(device, stamp, rest);
      }
      assert forall t | t in rest :: t in times;
    }
  }

  /** A device that is not set is never declared, whatever the calls. */
  lemma {:induction false} UnsetDeviceNeverDeclared(device: Option<Device>, stamp: Option<int>, times: seq<int>)
    requires device.None? || !DeviceIsSet(device.value)
    ensures Declarations(device, stamp, times) == []
    decreases |times|
  {
    if times != [] {
      UnsetDeviceNeverDeclared(device, stamp, times[1..]);
    }
  }

  /** What one destination is handed: the retained messages of its kind of declaration. */
  datatype Delivery = Delivery(destination: MqttSettings, publishes: seq<Publish>)

  /**
   * The branch of onDeclareMqttConnect (penistats.py:463-467): `if
   * mqttSettings.isHA` is true only for a true isHA.
   */
  function DeclarationFor(d: Device, m: MqttSettings, values: seq<DeclareValue>): seq<Publish> {
    if m.isHA == Some(true) then DeclareToHA(d, values)
    else DeclareToDefault(d, values)
  }

  /** The values have tags, and no two the same. */
  predicate TagsDistinct(values: seq<DeclareValue>) {
    (forall i | 0 <= i < |values| :: values[i].tag.Some?) &&
    (forall i, j | 0 <= i < j < |values| :: values[i].tag != values[j].tag)
  }

  /**
   * A destination gets the whole declaration of values with distinct tags:
   * one discovery message per value for Home Assistant, the device and one
   * message per value otherwise, all retained and on pairwise different topics.
   */
  lemma DeclarationComplete(d: Device, m: MqttSettings, values: seq<DeclareValue>)
    requires TagsDistinct(values)
    ensures var r := DeclarationFor(d, m, values);
      |r| == (if m.isHA == Some(true) then |values| else |values| + 1) &&
      (forall i | 0 <= i < |r| :: r[i].retain) &&
      (forall i, j | 0 <= i < j < |r| :: r[i].topic != r[j].topic)
  {
    var r := DeclarationFor(d, m, values);
    if m.isHA == Some(true) {
      forall i, j | 0 <= i < j < |r|
        ensures r[i].topic != r[j].topic
      {
        HATopicsDistinct(d, values[i], values[j]);
      }
    } else {
      forall i, j | 0 <= i < j < |r|
        ensures r[i].topic != r[j].topic
      {
        if i == 0 {
          DefaultTopicsDistinct(d, values[j - 1], values[j - 1]);
        } else {
          DefaultTopicsDistinct(d, values[i - 1], values[j - 1]);
        }
      }
    }
  }

  /** Every destination gets the seven standard values: seven messages for Home Assistant, eight otherwise. */
  lemma StandardDeclarationComplete(d: Device, m: MqttSettings)
    ensures var r := DeclarationFor(d, m, StandardDeclarations());
      |r| == (if m.isHA == Some(true) then 7 else 8) &&
      (forall i | 0 <= i < |r| :: r[i].retain) &&
      (forall i, j | 0 <= i < j < |r| :: r[i].topic != r[j].topic)
  {
    StandardDeclarationsStripped();
    DeclarationComplete(d, m, StandardDeclarations());
  }

  /** The loop of declareValues over the destinations (penistats.py:501-504), in the order of the mqtts list. */
  method DeclareToAll(device: Device, mqtts: seq<MqttSettings>, values: seq<DeclareValue>) returns (deliveries: seq<Delivery>)
    ensures |deliveries| == |mqtts|
    ensures forall k | 0 <= k < |mqtts| :: deliveries[k] == Delivery(mqtts[k], DeclarationFor(device, mqtts[k], values))
  {
    deliveries := [];
    var i := 0;
    while i < |mqtts|
      invariant 0 <= i <= |mqtts|
      invariant |deliveries| == i
      invariant forall k | 0 <= k < i :: deliveries[k] == Delivery(mqtts[k], DeclarationFor(device, mqtts[k], values))
    {
      deliveries := deliveries + [Delivery(mqtts[i], DeclarationFor(device, mqtts[i], values))];
      i := i + 1;
    }
  }

  /** The state of declareValues across calls: the global declareTstamp (penistats.py:563). */
  class Declarer {
    var stamp: Option<int>

    /** `declareTstamp:int = None` */
    constructor ()
      ensures stamp.None?
    {
      stamp := None;
    }

    /**
     * declareValues (penistats.py:483-510) called at time `now`: when the
     * guard lets it through, every destination is handed the declaration of
     * its kind, and the timestamp becomes `now`, even when there are no
     * destinations. A connection that does not succeed does not hold the
     * stamp back; a client that raises while it is built or connecting is
     * not modelled (the program would leave before stamping).
     */
    method DeclareValues(settings: Settings, now: int) returns (declared: bool, deliveries: seq<Delivery>)
      modifies this
      ensures declared == ShouldDeclare(settings.Value().device, old(stamp), now)
      ensures stamp == if declared then Some(now) else old(stamp)
      ensures declared ==> |deliveries| == |settings.mqtts|
      ensures declared ==> forall k | 0 <= k < |settings.mqtts| ::
        deliveries[k] == Delivery(settings.mqtts[k], DeclarationFor(settings.Value().device.value, settings.mqtts[k], StandardDeclarations()))
      ensures !declared ==> deliveries == []
    {
      var device := if settings.device == null then None else Some(settings.device.Value());
      if !ShouldDeclare(device, stamp, now) {
        return false, [];
      }
      deliveries := DeclareToAll(settings.device.Value(), settings.mqtts, StandardDeclarations());
      stamp := Some(now);
      declared := true;
    }
  }
}
