/**
 * The field mapper: from one configured sensor, the status map, the device
 * description and the base topic to the Home Assistant discovery payload and
 * the raw value (`build_payload`), plus the two topic builders.
 */
module Discovery {
  import opened Wrappers
  import opened Text

  /** One entry of the `sensors` list of the configuration. */
  datatype Sensor = Sensor(
    key: string,
    friendlyName: string,
    unit: Option<string>,
    icon: Option<string>,
    deviceClass: Option<string>)

  /** The `device` object shared by every sensor of the UPS. */
  datatype DeviceInfo = DeviceInfo(
    identifiers: seq<string>,
    name: string,
    model: string,
    manufacturer: string,
    swVersion: string)

  /** The discovery payload, before JSON serialisation; optional keys are `None` when left out. */
  datatype Payload = Payload(
    name: string,
    stateTopic: string,
    uniqueId: string,
    device: DeviceInfo,
    unitOfMeasurement: Option<string>,
    icon: Option<string>,
    deviceClass: Option<string>)

  /** The device half of an entity id: the name lower-cased, spaces made underscores. */
  function DevicePart(deviceName: string): string {
    Replace(Lower(deviceName), ' ', '_')
  }

  /** The key half of an entity id: dots made underscores. */
  function KeyPart(key: string): string {
    Replace(key, '.', '_')
  }

  /** The entity id `<device part>_<key part>`, character by character. */
  function EntityId(deviceName: string, key: string): (id: string)
    ensures |id| == |deviceName| + 1 + |key|
    ensures id[|deviceName|] == '_'
    ensures forall i :: 0 <= i < |deviceName| ==>
      id[i] == (if deviceName[i] == ' ' then '_' else LowerChar(deviceName[i]))
    ensures forall i :: 0 <= i < |key| ==>
      id[|deviceName| + 1 + i] == (if key[i] == '.' then '_' else key[i])
  {
    var d, k := DevicePart(deviceName), KeyPart(key);
    assert forall i :: 0 <= i < |key| ==> (d + "_" + k)[|deviceName| + 1 + i] == k[i];
    d + "_" + k
  }

  /** The discovery topic `homeassistant/sensor/<id>/config`. */
  function DiscoveryTopic(entityId: string): string {
    "homeassistant/sensor/" + entityId + "/config"
  }

  /** The state topic `<base>/<id>/state`. */
  function StateTopic(baseTopic: string, entityId: string): string {
    baseTopic + "/" + entityId + "/state"
  }

  /**
   * `build_payload`: nothing when the sensor's key is missing from the status
   * map; otherwise the discovery payload and the raw value.
   */
  function BuildPayload(sensor: Sensor, upsData: map<string, string>, device: DeviceInfo, baseTopic: string)
    : (r: Option<(Payload, string)>)
    ensures r.None? <==> sensor.key !in upsData
    ensures r.Some? ==> r.value.1 == upsData[sensor.key]
    ensures r.Some? ==> r.value.0.uniqueId == EntityId(device.name, sensor.key)
    ensures r.Some? ==> r.value.0.stateTopic == StateTopic(baseTopic, r.value.0.uniqueId)
  {
    if sensor.key !in upsData then None
    else
      var value := upsData[sensor.key];
      var entityId := EntityId(device.name, sensor.key);
      var payload := Payload(
        name := device.name + " " + sensor.friendlyName,
        stateTopic := StateTopic(baseTopic, entityId),
        uniqueId := entityId,
        device := device,
        unitOfMeasurement := sensor.unit,
        icon := sensor.icon,
        deviceClass := sensor.deviceClass);
      Some((payload, value))
  }

  /** Reads the entity id back out of a discovery topic. */
  function EntityOfDiscoveryTopic(topic: string): (r: Option<string>)
    ensures r.Some? ==> DiscoveryTopic(r.value) == topic
  {
    var pre, post := "homeassistant/sensor/", "/config";
    if |topic| >= |pre| + |post| && topic[..|pre|] == pre && topic[|topic| - |post|..] == post then
      var id := topic[|pre|..|topic| - |post|];
      assert topic == topic[..|pre|] + id + topic[|topic| - |post|..];
      Some(id)
    else None
  }

  /** Reads the entity id back out of a state topic under `baseTopic`. */
  function EntityOfStateTopic(baseTopic: string, topic: string): (r: Option<string>)
    ensures r.Some? ==> StateTopic(baseTopic, r.value) == topic
  {
    var pre, post := baseTopic + "/", "/state";
    if |topic| >= |pre| + |post| && topic[..|pre|] == pre && topic[|topic| - |post|..] == post then
      var id := topic[|pre|..|topic| - |post|];
      assert topic == topic[..|pre|] + id + topic[|topic| - |post|..];
      Some(id)
    else None
  }

  /** A discovery topic names its entity: reading it back gives the id. */
  lemma DiscoveryTopicRoundTrip(entityId: string)
    ensures EntityOfDiscoveryTopic(DiscoveryTopic(entityId)) == Some(entityId)
  {
    var t := DiscoveryTopic(entityId);
    var pre, post := "homeassistant/sensor/", "/config";
    assert t[..|pre|] == pre;
    assert t[|t| - |post|..] == post;
    assert t[|pre|..|t| - |post|] == entityId;
  }

  /** A state topic names its entity: reading it back gives the id. */
  lemma StateTopicRoundTrip(baseTopic: string, entityId: string)
    ensures EntityOfStateTopic(baseTopic, StateTopic(baseTopic, entityId)) == Some(entityId)
  {
    var t := StateTopic(baseTopic, entityId);
    var pre, post := baseTopic + "/", "/state";
    assert t == pre + entityId + post;
    assert t[..|pre|] == pre;
    assert t[|t| - |post|..] == post;
    assert t[|pre|..|t| - |post|] == entityId;
  }

  /** Two different entities never share a discovery topic or a state topic. */
  lemma TopicsInjective(baseTopic: string, id1: string, id2: string)
    requires id1 != id2
    ensures DiscoveryTopic(id1) != DiscoveryTopic(id2)
    ensures StateTopic(baseTopic, id1) != StateTopic(baseTopic, id2)
  {
    DiscoveryTopicRoundTrip(id1);
    DiscoveryTopicRoundTrip(id2);
    StateTopicRoundTrip(baseTopic, id1);
    StateTopicRoundTrip(baseTopic, id2);
  }

  /** A discovery topic is never a state topic, whatever the base topic. */
  lemma DiscoveryIsNotState(baseTopic: string, id1: string, id2: string)
    ensures DiscoveryTopic(id1) != StateTopic(baseTopic, id2)
  {
    var d, s := DiscoveryTopic(id1), StateTopic(baseTopic, id2);
    assert d[|d| - 1] == 'g';
    assert s[|s| - 1] == 'e';
  }

  /** The worked example: device "Office UPS" and key "battery.charge". */
  lemma EntityIdExample(deviceName: string, key: string)
    requires deviceName == "Office UPS" && key == "battery.charge"
    ensures EntityId(deviceName, key) == "office_ups_battery_charge"
  {
    DevicePartExample(deviceName);
    KeyPartExample(key);
  }

  lemma DevicePartExample(deviceName: string)
    requires deviceName == "Office UPS"
    ensures DevicePart(deviceName) == "office_ups"
  {
    var d := DevicePart(deviceName);
    assert forall i :: 0 <= i < |deviceName| ==>
      d[i] == (if deviceName[i] == ' ' then '_' else LowerChar(deviceName[i]));
  }

  lemma KeyPartExample(key: string)
    requires key == "battery.charge"
    ensures KeyPart(key) == "battery_charge"
  {
    var k := KeyPart(key);
    assert forall i :: 0 <= i < |key| ==> k[i] == (if key[i] == '.' then '_' else key[i]);
  }

  /**
   * Known edge case: a dot and an underscore in a key map to the same id, so
   * two sensors can collide.
   */
  lemma EntityIdCollision(deviceName: string, k1: string, k2: string)
    requires k1 == "battery.charge" && k2 == "battery_charge"
    ensures k1 != k2 && EntityId(deviceName, k1) == EntityId(deviceName, k2)
  {
    assert k1[7] != k2[7];
    var a, b := KeyPart(k1), KeyPart(k2);
    assert forall i :: 0 <= i < |k1| ==> a[i] == (if k1[i] == '.' then '_' else k1[i]);
    assert forall i :: 0 <= i < |k2| ==> b[i] == (if k2[i] == '.' then '_' else k2[i]);
    assert a == b;
  }

  /** Keys without underscores keep their entity ids apart. */
  lemma EntityIdDistinct(deviceName: string, k1: string, k2: string)
    requires Lacks(k1, '_') && Lacks(k2, '_') && k1 != k2
    ensures EntityId(deviceName, k1) != EntityId(deviceName, k2)
  {
    if |k1| == |k2| {
      var j :| 0 <= j < |k1| && k1[j] != k2[j];
      var n := |deviceName| + 1 + j;
      assert EntityId(deviceName, k1)[n] != EntityId(deviceName, k2)[n];
    }
  }

  /**
   * The payload's optional keys are present exactly when the sensor defines
   * them, with the same text, and its display name is the device name, a
   * space and the friendly name.
   */
  lemma PayloadFields(sensor: Sensor, upsData: map<string, string>, device: DeviceInfo, baseTopic: string)
    requires sensor.key in upsData
    ensures var p := BuildPayload(sensor, upsData, device, baseTopic).value.0;
      && (p.unitOfMeasurement.Some? <==> sensor.unit.Some?)
      && (p.icon.Some? <==> sensor.icon.Some?)
      && (p.deviceClass.Some? <==> sensor.deviceClass.Some?)
      && (sensor.unit.Some? ==> p.unitOfMeasurement.value == sensor.unit.value)
      && (sensor.icon.Some? ==> p.icon.value == sensor.icon.value)
      && (sensor.deviceClass.Some? ==> p.deviceClass.value == sensor.deviceClass.value)
      && p.name[..|device.name|] == device.name
      && p.name[|device.name|] == ' '
      && p.name[|device.name| + 1..] == sensor.friendlyName
      && p.device == device
  {
  }

  /** An empty-string value is still data: the sensor is published. */
  lemma EmptyValueStillPublished(sensor: Sensor, upsData: map<string, string>, device: DeviceInfo, baseTopic: string)
    requires sensor.key in upsData && upsData[sensor.key] == ""
    ensures BuildPayload(sensor, upsData, device, baseTopic) != None
    ensures BuildPayload(sensor, upsData, device, baseTopic).value.1 == ""
  {
  }
}
