/**
 * One pass of the bridge's main loop: for every configured sensor, in
 * configuration order, publish the discovery payload and, when the value
 * differs from the one last published, the state, recording it in
 * `last_values`. The MQTT client is a log of publishes.
 */
module PollLoop {
  import opened Wrappers
  import opened StatusReader
  import opened Discovery
  import opened Text

  /** What is published: the discovery payload (before JSON encoding) or a raw state value. */
  datatype Message = Config(payload: Payload) | State(value: string)

  /** One `client.publish(topic, payload, retain)` call. */
  datatype Event = Event(topic: string, message: Message, retain: bool)

  /** What a stretch of the loop does: the publishes, in order, and the new `last_values`. */
  datatype Effect = Effect(events: seq<Event>, last: map<string, string>)

  /** The change test `last_values.get(entity_id) != value`: a missing entry counts as different. */
  predicate Changed(last: map<string, string>, entityId: string, value: string) {
    entityId !in last || last[entityId] != value
  }

  /** Sensor `s` has data in `data` and its entity id is `k`. */
  predicate Feeds(s: Sensor, data: map<string, string>, device: DeviceInfo, k: string) {
    s.key in data && EntityId(device.name, s.key) == k
  }

  /**
   * The loop body for one sensor. Without data nothing happens; with data the
   * discovery payload is published, then the state if it changed, and
   * afterwards `last_values` holds the value either way.
   */
  function StepEffect(sensor: Sensor, data: map<string, string>, device: DeviceInfo, baseTopic: string,
                      last: map<string, string>): (r: Effect)
    ensures sensor.key !in data ==> r == Effect([], last)
    ensures sensor.key in data ==>
      var id := EntityId(device.name, sensor.key);
      var value := data[sensor.key];
      && r.last == last[id := value]
      && |r.events| == (if Changed(last, id, value) then 2 else 1)
      && r.events[0] == Event(DiscoveryTopic(id), Config(BuildPayload(sensor, data, device, baseTopic).value.0), true)
      && (Changed(last, id, value) ==> r.events[1] == Event(StateTopic(baseTopic, id), State(value), true))
  {
    match BuildPayload(sensor, data, device, baseTopic)
    case None => Effect([], last)
    case Some((payload, value)) =>
      var id := payload.uniqueId;
      var discovery := Event(DiscoveryTopic(id), Config(payload), true);
      if Changed(last, id, value) then
        Effect([discovery, Event(StateTopic(baseTopic, id), State(value), true)], last[id := value])
      else
        Effect([discovery], last)
  }

  /** The body of `while True` for one status map: the sensors' steps in order. */
  function CycleEffect(sensors: seq<Sensor>, data: map<string, string>, device: DeviceInfo, baseTopic: string,
                       last: map<string, string>): Effect
  {
    if sensors == [] then Effect([], last)
    else
      var before := CycleEffect(sensors[..|sensors| - 1], data, device, baseTopic, last);
      var step := StepEffect(sensors[|sensors| - 1], data, device, baseTopic, before.last);
      Effect(before.events + step.events, step.last)
  }

  /** Several passes of the loop, one per status map, the tracker carried from one to the next. */
  function RunEffect(snapshots: seq<map<string, string>>, sensors: seq<Sensor>, device: DeviceInfo,
                     baseTopic: string, last: map<string, string>): Effect
  {
    if snapshots == [] then Effect([], last)
    else
      var before := RunEffect(snapshots[..|snapshots| - 1], sensors, device, baseTopic, last);
      var cycle := CycleEffect(sensors, snapshots[|snapshots| - 1], device, baseTopic, before.last);
      Effect(before.events + cycle.events, cycle.last)
  }

  /** The status maps `read_ups` returns for a sequence of `upsc` results. */
  function Snapshots(polls: seq<(int, string)>): (r: seq<map<string, string>>)
    ensures |r| == |polls|
  {
    if polls == [] then []
    else Snapshots(polls[..|polls| - 1]) + [ParseUps(polls[|polls| - 1].0, polls[|polls| - 1].1)]
  }

  /** The `i`th status map of a run is what `read_ups` returns for the `i`th `upsc` result. */
  lemma {:induction false} SnapshotAt(polls: seq<(int, string)>, i: nat)
    requires i < |polls|
    ensures Snapshots(polls)[i] == ParseUps(polls[i].0, polls[i].1)
  {
    if i < |polls| - 1 {
      SnapshotAt(polls[..|polls| - 1], i);
    }
  }

  // ---------------------------------------------------------------------------
  // No data, no publishes

  /** Sensors whose keys are all missing publish nothing and leave the tracker alone. */
  lemma {:induction false} CycleWithoutData(sensors: seq<Sensor>, data: map<string, string>, device: DeviceInfo,
                                             baseTopic: string, last: map<string, string>)
    requires forall i :: 0 <= i < |sensors| ==> sensors[i].key !in data
    ensures CycleEffect(sensors, data, device, baseTopic, last) == Effect([], last)
  {
    if sensors != [] {
      CycleWithoutData(sensors[..|sensors| - 1], data, device, baseTopic, last);
    }
  }

  /** A failed `upsc` run (non-zero exit code) publishes nothing, whatever it printed. */
  lemma FailedPollPublishesNothing(returnCode: int, stdout: string, sensors: seq<Sensor>, device: DeviceInfo,
                                   baseTopic: string, last: map<string, string>)
    requires returnCode != 0
    ensures CycleEffect(sensors, ParseUps(returnCode, stdout), device, baseTopic, last) == Effect([], last)
  {
    CycleWithoutData(sensors, ParseUps(returnCode, stdout), device, baseTopic, last);
  }

  // ---------------------------------------------------------------------------
  // The tracker after a cycle

  /** An entity no sensor with data maps to keeps its entry (or its absence). */
  lemma {:induction false} CycleUntouched(sensors: seq<Sensor>, data: map<string, string>, device: DeviceInfo,
                                           baseTopic: string, last: map<string, string>, k: string)
    requires forall i :: 0 <= i < |sensors| ==> !Feeds(sensors[i], data, device, k)
    ensures var r := CycleEffect(sensors, data, device, baseTopic, last).last;
      (k in r <==> k in last) && (k in last ==> r[k] == last[k])
  {
    if sensors != [] {
      CycleUntouched(sensors[..|sensors| - 1], data, device, baseTopic, last, k);
      assert !Feeds(sensors[|sensors| - 1], data, device, k);
    }
  }

  /**
   * After a cycle, an entity holds the value of the LAST sensor with data that
   * maps to it (sensors whose ids collide overwrite each other in order).
   */
  lemma {:induction false} CycleLastWins(sensors: seq<Sensor>, data: map<string, string>, device: DeviceInfo,
                                          baseTopic: string, last: map<string, string>, i: nat)
    requires i < |sensors| && sensors[i].key in data
    requires forall j :: i < j < |sensors| ==>
      !Feeds(sensors[j], data, device, EntityId(device.name, sensors[i].key))
    ensures var r := CycleEffect(sensors, data, device, baseTopic, last).last;
      EntityId(device.name, sensors[i].key) in r && r[EntityId(device.name, sensors[i].key)] == data[sensors[i].key]
  {
    var init := sensors[..|sensors| - 1];
    if i < |sensors| - 1 {
      assert init[i] == sensors[i];
      forall j | i < j < |init| ensures !Feeds(init[j], data, device, EntityId(device.name, init[i].key)) {
        assert init[j] == sensors[j];
      }
      CycleLastWins(init, data, device, baseTopic, last, i);
      assert !Feeds(sensors[|sensors| - 1], data, device, EntityId(device.name, sensors[i].key));
    }
  }

  /** An entity with an entry after the cycle had one before or is fed by some sensor. */
  lemma {:induction false} CycleNewEntries(sensors: seq<Sensor>, data: map<string, string>, device: DeviceInfo,
                                            baseTopic: string, last: map<string, string>, k: string)
    requires k in CycleEffect(sensors, data, device, baseTopic, last).last && k !in last
    ensures exists i :: 0 <= i < |sensors| && Feeds(sensors[i], data, device, k)
  {
    var init := sensors[..|sensors| - 1];
    var s := sensors[|sensors| - 1];
    if Feeds(s, data, device, k) {
      assert Feeds(sensors[|sensors| - 1], data, device, k);
    } else {
      CycleNewEntries(init, data, device, baseTopic, last, k);
      var i :| 0 <= i < |init| && Feeds(init[i], data, device, k);
      assert init[i] == sensors[i];
    }
  }

  // ---------------------------------------------------------------------------
  // What a cycle publishes

  /** The discovery payloads among `events`, in order. */
  function Discoveries(events: seq<Event>): seq<Payload> {
    if events == [] then []
    else
      var e := events[|events| - 1];
      Discoveries(events[..|events| - 1]) + (if e.message.Config? then [e.message.payload] else [])
  }

  /** The state publishes among `events`, in order. */
  function States(events: seq<Event>): seq<Event> {
    if events == [] then []
    else
      var e := events[|events| - 1];
      States(events[..|events| - 1]) + (if e.message.State? then [e] else [])
  }

  lemma {:induction false} DiscoveriesAppend(a: seq<Event>, b: seq<Event>)
    ensures Discoveries(a + b) == Discoveries(a) + Discoveries(b)
    decreases |b|
  {
    if b != [] {
      assert (a + b)[..|a + b| - 1] == a + b[..|b| - 1];
      DiscoveriesAppend(a, b[..|b| - 1]);
    } else {
      assert a + b == a;
    }
  }

  lemma {:induction false} StatesAppend(a: seq<Event>, b: seq<Event>)
    ensures States(a + b) == States(a) + States(b)
    decreases |b|
  {
    if b != [] {
      assert (a + b)[..|a + b| - 1] == a + b[..|b| - 1];
      StatesAppend(a, b[..|b| - 1]);
    } else {
      assert a + b == a;
    }
  }

  /** The discovery payloads of the sensors that have data, in configuration order. */
  function ExpectedDiscoveries(sensors: seq<Sensor>, data: map<string, string>, device: DeviceInfo,
                               baseTopic: string): seq<Payload>
  {
    if sensors == [] then []
    else
      var s := sensors[|sensors| - 1];
      ExpectedDiscoveries(sensors[..|sensors| - 1], data, device, baseTopic)
        + (if s.key in data then [BuildPayload(s, data, device, baseTopic).value.0] else [])
  }

  lemma StepDiscoveries(sensor: Sensor, data: map<string, string>, device: DeviceInfo, baseTopic: string,
                        last: map<string, string>)
    ensures Discoveries(StepEffect(sensor, data, device, baseTopic, last).events)
      == if sensor.key in data then [BuildPayload(sensor, data, device, baseTopic).value.0] else []
    ensures States(StepEffect(sensor, data, device, baseTopic, last).events)
      == if sensor.key in data && Changed(last, EntityId(device.name, sensor.key), data[sensor.key])
         then [Event(StateTopic(baseTopic, EntityId(device.name, sensor.key)), State(data[sensor.key]), true)]
         else []
  {
    var es := StepEffect(sensor, data, device, baseTopic, last).events;
    if |es| == 2 {
      assert es == [es[0]] + [es[1]];
      DiscoveriesAppend([es[0]], [es[1]]);
      StatesAppend([es[0]], [es[1]]);
      assert [es[0]][..0] == [] && [es[1]][..0] == [];
    } else if |es| == 1 {
      assert es[..0] == [];
    }
  }

  /**
   * Every sensor with data gets exactly one discovery publish per cycle, in
   * configuration order, whatever the tracker holds: discovery is not deduplicated.
   */
  lemma {:induction false} CycleDiscoveries(sensors: seq<Sensor>, data: map<string, string>, device: DeviceInfo,
                                             baseTopic: string, last: map<string, string>)
    ensures Discoveries(CycleEffect(sensors, data, device, baseTopic, last).events)
      == ExpectedDiscoveries(sensors, data, device, baseTopic)
  {
    if sensors != [] {
      var init := sensors[..|sensors| - 1];
      var before := CycleEffect(init, data, device, baseTopic, last);
      CycleDiscoveries(init, data, device, baseTopic, last);
      var step := StepEffect(sensors[|sensors| - 1], data, device, baseTopic, before.last);
      DiscoveriesAppend(before.events, step.events);
      StepDiscoveries(sensors[|sensors| - 1], data, device, baseTopic, before.last);
    }
  }

  /**
   * The shape of every publish: retained; a discovery goes to the discovery
   * topic of its payload's `unique_id`, whose `state_topic` is that entity's
   * state topic; a state publish directly follows the discovery publish of the
   * same entity and goes to the `state_topic` that payload announced.
   */
  ghost predicate WellFormed(events: seq<Event>, baseTopic: string) {
    forall i :: 0 <= i < |events| ==> EventWellFormed(events, i, baseTopic)
  }

  ghost predicate EventWellFormed(events: seq<Event>, i: nat, baseTopic: string)
    requires i < |events|
  {
    && events[i].retain
    && (events[i].message.Config? ==>
          && events[i].topic == DiscoveryTopic(events[i].message.payload.uniqueId)
          && events[i].message.payload.stateTopic == StateTopic(baseTopic, events[i].message.payload.uniqueId))
    && (events[i].message.State? ==>
          && 0 < i
          && events[i - 1].message.Config?
          && events[i - 1].message.payload.stateTopic == events[i].topic)
  }

  lemma WellFormedAppend(a: seq<Event>, b: seq<Event>, baseTopic: string)
    requires WellFormed(a, baseTopic) && WellFormed(b, baseTopic)
    requires b != [] ==> b[0].message.Config?
    ensures WellFormed(a + b, baseTopic)
  {
    var ab := a + b;
    forall i | 0 <= i < |ab| ensures EventWellFormed(ab, i, baseTopic) {
      if i < |a| {
        assert EventWellFormed(a, i, baseTopic);
        assert ab[i] == a[i];
        if 0 < i { assert ab[i - 1] == a[i - 1]; }
      } else {
        var j := i - |a|;
        assert EventWellFormed(b, j, baseTopic);
        assert ab[i] == b[j];
        if 0 < j { assert ab[i - 1] == b[j - 1]; }
      }
    }
  }

  lemma {:induction false} CycleWellFormed(sensors: seq<Sensor>, data: map<string, string>, device: DeviceInfo,
                                            baseTopic: string, last: map<string, string>)
    ensures WellFormed(CycleEffect(sensors, data, device, baseTopic, last).events, baseTopic)
  {
    if sensors != [] {
      var init := sensors[..|sensors| - 1];
      var before := CycleEffect(init, data, device, baseTopic, last);
      CycleWellFormed(init, data, device, baseTopic, last);
      var step := StepEffect(sensors[|sensors| - 1], data, device, baseTopic, before.last);
      WellFormedAppend(before.events, step.events, baseTopic);
    }
  }

  // ---------------------------------------------------------------------------
  // Deduplication of state publishes

  /** Every sensor with data already has its current value recorded in `last`. */
  ghost predicate Recorded(sensors: seq<Sensor>, data: map<string, string>, device: DeviceInfo,
                           last: map<string, string>)
  {
    forall i :: 0 <= i < |sensors| && sensors[i].key in data ==>
      && EntityId(device.name, sensors[i].key) in last
      && last[EntityId(device.name, sensors[i].key)] == data[sensors[i].key]
  }

  /** Sensors with data that share an entity id also share the value. */
  ghost predicate Consistent(sensors: seq<Sensor>, data: map<string, string>, device: DeviceInfo) {
    forall i, j :: 0 <= i < |sensors| && 0 <= j < |sensors| && sensors[i].key in data && sensors[j].key in data
      && EntityId(device.name, sensors[i].key) == EntityId(device.name, sensors[j].key)
      ==> data[sensors[i].key] == data[sensors[j].key]
  }

  /** When every value is already recorded, a cycle publishes no state and changes nothing. */
  lemma {:induction false} CycleQuiet(sensors: seq<Sensor>, data: map<string, string>, device: DeviceInfo,
                                       baseTopic: string, last: map<string, string>)
    requires Recorded(sensors, data, device, last)
    ensures CycleEffect(sensors, data, device, baseTopic, last).last == last
    ensures States(CycleEffect(sensors, data, device, baseTopic, last).events) == []
  {
    if sensors != [] {
      var init := sensors[..|sensors| - 1];
      assert Recorded(init, data, device, last) by {
        forall i | 0 <= i < |init| ensures init[i] == sensors[i] { }
      }
      CycleQuiet(init, data, device, baseTopic, last);
      var before := CycleEffect(init, data, device, baseTopic, last);
      var s := sensors[|sensors| - 1];
      StepDiscoveries(s, data, device, baseTopic, before.last);
      StatesAppend(before.events, StepEffect(s, data, device, baseTopic, before.last).events);
    }
  }

  /** After a cycle every sensor with data has its value recorded (given consistent ids). */
  lemma {:induction false} CycleRecords(sensors: seq<Sensor>, data: map<string, string>, device: DeviceInfo,
                                         baseTopic: string, last: map<string, string>)
    requires Consistent(sensors, data, device)
    ensures Recorded(sensors, data, device, CycleEffect(sensors, data, device, baseTopic, last).last)
  {
    if sensors != [] {
      var n := |sensors| - 1;
      var init := sensors[..n];
      assert forall i :: 0 <= i < n ==> init[i] == sensors[i];
      assert Consistent(init, data, device);
      CycleRecords(init, data, device, baseTopic, last);
      var before := CycleEffect(init, data, device, baseTopic, last);
      var r := CycleEffect(sensors, data, device, baseTopic, last);
      forall i | 0 <= i < |sensors| && sensors[i].key in data
        ensures EntityId(device.name, sensors[i].key) in r.last
        ensures r.last[EntityId(device.name, sensors[i].key)] == data[sensors[i].key]
      {
        if i < n && sensors[n].key in data
           && EntityId(device.name, sensors[i].key) == EntityId(device.name, sensors[n].key) {
          assert data[sensors[i].key] == data[sensors[n].key];
        }
      }
    }
  }

  /**
   * Dedup: running a cycle a second time on the same status map publishes the
   * same discovery payloads again but no state at all, and leaves the tracker
   * as the first run left it.
   */
  lemma RepeatedCycle(sensors: seq<Sensor>, data: map<string, string>, device: DeviceInfo,
                      baseTopic: string, last: map<string, string>)
    requires Consistent(sensors, data, device)
    ensures var first := CycleEffect(sensors, data, device, baseTopic, last);
      var second := CycleEffect(sensors, data, device, baseTopic, first.last);
      && second.last == first.last
      && States(second.events) == []
      && Discoveries(second.events) == Discoveries(first.events)
  {
    var first := CycleEffect(sensors, data, device, baseTopic, last);
    CycleRecords(sensors, data, device, baseTopic, last);
    CycleQuiet(sensors, data, device, baseTopic, first.last);
    CycleDiscoveries(sensors, data, device, baseTopic, last);
    CycleDiscoveries(sensors, data, device, baseTopic, first.last);
  }

  /** No two sensors with data share an entity id. */
  ghost predicate DistinctIds(sensors: seq<Sensor>, data: map<string, string>, device: DeviceInfo) {
    forall i, j :: 0 <= i < j < |sensors| && sensors[i].key in data && sensors[j].key in data
      ==> EntityId(device.name, sensors[i].key) != EntityId(device.name, sensors[j].key)
  }

  /**
   * The state publishes a cycle should make, judged against the tracker as it
   * was BEFORE the cycle: one per sensor with data whose value differs from
   * the recorded one, in configuration order.
   */
  function ExpectedStates(sensors: seq<Sensor>, data: map<string, string>, device: DeviceInfo,
                          baseTopic: string, last: map<string, string>): seq<Event>
  {
    if sensors == [] then []
    else
      var s := sensors[|sensors| - 1];
      var id := EntityId(device.name, s.key);
      ExpectedStates(sensors[..|sensors| - 1], data, device, baseTopic, last)
        + (if s.key in data && Changed(last, id, data[s.key])
           then [Event(StateTopic(baseTopic, id), State(data[s.key]), true)] else [])
  }

  /**
   * With distinct entity ids, a cycle publishes the state of exactly the
   * sensors whose value differs from what the tracker held before the cycle.
   */
  lemma {:induction false} CycleStates(sensors: seq<Sensor>, data: map<string, string>, device: DeviceInfo,
                                        baseTopic: string, last: map<string, string>)
    requires DistinctIds(sensors, data, device)
    ensures States(CycleEffect(sensors, data, device, baseTopic, last).events)
      == ExpectedStates(sensors, data, device, baseTopic, last)
  {
    if sensors != [] {
      var init := sensors[..|sensors| - 1];
      var s := sensors[|sensors| - 1];
      DistinctIdsInit(sensors, data, device);
      CycleStates(init, data, device, baseTopic, last);
      var before := CycleEffect(init, data, device, baseTopic, last);
      var id := EntityId(device.name, s.key);
      if s.key in data {
        CycleUntouched(init, data, device, baseTopic, last, id);
        assert Changed(before.last, id, data[s.key]) == Changed(last, id, data[s.key]);
      }
      StepDiscoveries(s, data, device, baseTopic, before.last);
      StatesAppend(before.events, StepEffect(s, data, device, baseTopic, before.last).events);
    }
  }

  /** Dropping the last sensor keeps the ids distinct, and no earlier sensor feeds the last one's id. */
  lemma DistinctIdsInit(sensors: seq<Sensor>, data: map<string, string>, device: DeviceInfo)
    requires sensors != [] && DistinctIds(sensors, data, device)
    ensures DistinctIds(sensors[..|sensors| - 1], data, device)
    ensures var s := sensors[|sensors| - 1];
      s.key in data ==> forall i :: 0 <= i < |sensors| - 1 ==> !Feeds(sensors[i], data, device, EntityId(device.name, s.key))
  {
    var n := |sensors| - 1;
    var init := sensors[..n];
    assert forall i :: 0 <= i < n ==> init[i] == sensors[i];
  }

  // ---------------------------------------------------------------------------
  // The change tracker over many cycles

  /** The values `key` takes in the status maps that have it, in order. */
  function PresentValues(snapshots: seq<map<string, string>>, key: string): seq<string> {
    if snapshots == [] then []
    else
      var d := snapshots[|snapshots| - 1];
      PresentValues(snapshots[..|snapshots| - 1], key) + (if key in d then [d[key]] else [])
  }

  /** The last of `values`, or `prev` when there is none. */
  function LastOr(values: seq<string>, prev: Option<string>): (r: Option<string>)
    ensures values != [] ==> r == Some(values[|values| - 1])
    ensures values == [] ==> r == prev
  {
    if values == [] then prev else Some(values[|values| - 1])
  }

  /** `values` without the entries equal to the entry before them; `prev` stands before the first. */
  function Compress(values: seq<string>, prev: Option<string>): seq<string> {
    if values == [] then []
    else
      var init := values[..|values| - 1];
      var v := values[|values| - 1];
      Compress(init, prev) + (if LastOr(init, prev) == Some(v) then [] else [v])
  }

  /**
   * A compressed sequence never repeats a value twice in a row, does not start
   * with `prev`, and ends with the last value (`prev` when it is empty).
   */
  lemma {:induction false} CompressNoRepeats(values: seq<string>, prev: Option<string>)
    ensures var c := Compress(values, prev);
      && (forall i :: 0 < i < |c| ==> c[i - 1] != c[i])
      && (c != [] ==> prev != Some(c[0]))
      && LastOr(values, prev) == LastOr(c, prev)
  {
    if values != [] {
      var init := values[..|values| - 1];
      var v := values[|values| - 1];
      var c0 := Compress(init, prev);
      CompressNoRepeats(init, prev);
      if LastOr(init, prev) == Some(v) {
        assert Compress(values, prev) == c0;
      } else {
        var c := c0 + [v];
        assert Compress(values, prev) == c;
        assert forall i :: 0 < i < |c| ==> c[i - 1] != c[i] by {
          forall i | 0 < i < |c| ensures c[i - 1] != c[i] {
            if i < |c0| {
              assert c[i - 1] == c0[i - 1] && c[i] == c0[i];
            } else {
              assert c[i - 1] == c0[|c0| - 1];
            }
          }
        }
        assert c != [] ==> prev != Some(c[0]) by {
          if c0 != [] { assert c[0] == c0[0]; }
        }
      }
    }
  }

  /** The lookup `last_values.get(id)`. */
  function Lookup(last: map<string, string>, id: string): (r: Option<string>)
    ensures r.Some? <==> id in last
    ensures r.Some? ==> r.value == last[id]
  {
    if id in last then Some(last[id]) else None
  }

  /** The values published on the state topic `topic` among `events`, in order. */
  function StatesOn(events: seq<Event>, topic: string): seq<string> {
    if events == [] then []
    else
      var e := events[|events| - 1];
      StatesOn(events[..|events| - 1], topic) + (if e.message.State? && e.topic == topic then [e.message.value] else [])
  }

  lemma {:induction false} StatesOnAppend(a: seq<Event>, b: seq<Event>, topic: string)
    ensures StatesOn(a + b, topic) == StatesOn(a, topic) + StatesOn(b, topic)
    decreases |b|
  {
    if b != [] {
      assert (a + b)[..|a + b| - 1] == a + b[..|b| - 1];
      StatesOnAppend(a, b[..|b| - 1], topic);
    } else {
      assert a + b == a;
    }
  }

  /** The configuration gives sensor `k` an entity id no other sensor has. */
  ghost predicate UniqueAt(sensors: seq<Sensor>, device: DeviceInfo, k: nat)
    requires k < |sensors|
  {
    forall j :: 0 <= j < |sensors| && j != k ==>
      EntityId(device.name, sensors[j].key) != EntityId(device.name, sensors[k].key)
  }

  /** At most one sensor of the configuration maps to the entity `id`. */
  ghost predicate AtMostOne(sensors: seq<Sensor>, device: DeviceInfo, id: string) {
    forall i, j :: 0 <= i < j < |sensors| && EntityId(device.name, sensors[i].key) == id
      ==> EntityId(device.name, sensors[j].key) != id
  }

  /** The value the last sensor with data that maps to `id` reports in `data`, if any. */
  function FedValue(sensors: seq<Sensor>, data: map<string, string>, device: DeviceInfo, id: string): Option<string> {
    if sensors == [] then None
    else
      var s := sensors[|sensors| - 1];
      if Feeds(s, data, device, id) then Some(data[s.key]) else FedValue(sensors[..|sensors| - 1], data, device, id)
  }

  lemma {:induction false} FedValueNone(sensors: seq<Sensor>, data: map<string, string>, device: DeviceInfo, id: string)
    requires forall i :: 0 <= i < |sensors| ==> EntityId(device.name, sensors[i].key) != id
    ensures FedValue(sensors, data, device, id) == None
  {
    if sensors != [] {
      var init := sensors[..|sensors| - 1];
      assert forall i :: 0 <= i < |init| ==> init[i] == sensors[i];
      FedValueNone(init, data, device, id);
      assert !Feeds(sensors[|sensors| - 1], data, device, id);
    }
  }

  /** A sensor with an id of its own is the only one that feeds that id. */
  lemma {:induction false} FedValueAt(sensors: seq<Sensor>, data: map<string, string>, device: DeviceInfo, k: nat)
    requires k < |sensors| && UniqueAt(sensors, device, k)
    ensures FedValue(sensors, data, device, EntityId(device.name, sensors[k].key))
      == if sensors[k].key in data then Some(data[sensors[k].key]) else None
  {
    var n := |sensors| - 1;
    var init := sensors[..n];
    var id := EntityId(device.name, sensors[k].key);
    assert forall i :: 0 <= i < n ==> init[i] == sensors[i];
    if k == n {
      if sensors[k].key !in data {
        FedValueNone(init, data, device, id);
      }
    } else {
      assert EntityId(device.name, sensors[n].key) != id;
      assert UniqueAt(init, device, k);
      FedValueAt(init, data, device, k);
    }
  }

  lemma UniqueAtMostOne(sensors: seq<Sensor>, device: DeviceInfo, k: nat)
    requires k < |sensors| && UniqueAt(sensors, device, k)
    ensures AtMostOne(sensors, device, EntityId(device.name, sensors[k].key))
  {
  }

  /** What one sensor's step does to the entity `id`: its tracker entry and its state topic. */
  lemma StepOnEntity(sensor: Sensor, data: map<string, string>, device: DeviceInfo, baseTopic: string,
                     last: map<string, string>, id: string)
    ensures var r := StepEffect(sensor, data, device, baseTopic, last);
      && Lookup(r.last, id) == (if Feeds(sensor, data, device, id) then Some(data[sensor.key]) else Lookup(last, id))
      && StatesOn(r.events, StateTopic(baseTopic, id))
         == (if Feeds(sensor, data, device, id) && Lookup(last, id) != Some(data[sensor.key])
             then [data[sensor.key]] else [])
  {
    var es := StepEffect(sensor, data, device, baseTopic, last).events;
    var topic := StateTopic(baseTopic, id);
    if sensor.key in data && EntityId(device.name, sensor.key) != id {
      TopicsInjective(baseTopic, id, EntityId(device.name, sensor.key));
    }
    if |es| == 2 {
      assert es == [es[0]] + [es[1]];
      StatesOnAppend([es[0]], [es[1]], topic);
      assert [es[0]][..0] == [] && [es[1]][..0] == [];
    } else if |es| == 1 {
      assert es[..0] == [];
    }
  }

  /**
   * What a cycle does to an entity at most one sensor maps to: the tracker
   * takes the value that sensor reports, and its state topic carries that
   * value exactly when it differs from the one recorded before the cycle.
   */
  lemma {:induction false} CycleOnEntity(sensors: seq<Sensor>, data: map<string, string>, device: DeviceInfo,
                                          baseTopic: string, last: map<string, string>, id: string)
    requires AtMostOne(sensors, device, id)
    ensures var r := CycleEffect(sensors, data, device, baseTopic, last);
      var fv := FedValue(sensors, data, device, id);
      && Lookup(r.last, id) == (if fv.Some? then fv else Lookup(last, id))
      && StatesOn(r.events, StateTopic(baseTopic, id)) == (if fv.Some? && Lookup(last, id) != fv then [fv.value] else [])
  {
    if sensors != [] {
      var init := sensors[..|sensors| - 1];
      var s := sensors[|sensors| - 1];
      AtMostOneInit(sensors, data, device, id);
      CycleOnEntity(init, data, device, baseTopic, last, id);
      var before := CycleEffect(init, data, device, baseTopic, last);
      var step := StepEffect(s, data, device, baseTopic, before.last);
      StatesOnAppend(before.events, step.events, StateTopic(baseTopic, id));
      StepOnEntity(s, data, device, baseTopic, before.last, id);
    }
  }

  /** Dropping the last sensor keeps the uniqueness of `id`; if that sensor feeds `id`, no other does. */
  lemma AtMostOneInit(sensors: seq<Sensor>, data: map<string, string>, device: DeviceInfo, id: string)
    requires sensors != [] && AtMostOne(sensors, device, id)
    ensures AtMostOne(sensors[..|sensors| - 1], device, id)
    ensures Feeds(sensors[|sensors| - 1], data, device, id) ==> FedValue(sensors[..|sensors| - 1], data, device, id) == None
  {
    var n := |sensors| - 1;
    var init := sensors[..n];
    assert forall i :: 0 <= i < n ==> init[i] == sensors[i];
    if Feeds(sensors[n], data, device, id) {
      FedValueNone(init, data, device, id);
    }
  }

  /**
   * The change tracker over a run of cycles, for any sensor whose entity id
   * no other sensor of the configuration shares: the values published on its
   * state topic are the values it reported, with every value equal to the
   * previous reported one dropped. A cycle without its key neither publishes
   * on that topic nor resets the tracker.
   */
  lemma {:induction false} EntityRun(snapshots: seq<map<string, string>>, sensors: seq<Sensor>, k: nat,
                                      device: DeviceInfo, baseTopic: string, last: map<string, string>)
    requires k < |sensors| && UniqueAt(sensors, device, k)
    ensures var r := RunEffect(snapshots, sensors, device, baseTopic, last);
      var id := EntityId(device.name, sensors[k].key);
      && StatesOn(r.events, StateTopic(baseTopic, id)) == Compress(PresentValues(snapshots, sensors[k].key), Lookup(last, id))
      && Lookup(r.last, id) == LastOr(PresentValues(snapshots, sensors[k].key), Lookup(last, id))
  {
    if snapshots != [] {
      var key := sensors[k].key;
      var init := snapshots[..|snapshots| - 1];
      var data := snapshots[|snapshots| - 1];
      EntityRun(init, sensors, k, device, baseTopic, last);
      var before := RunEffect(init, sensors, device, baseTopic, last);
      var cycle := CycleEffect(sensors, data, device, baseTopic, before.last);
      var id := EntityId(device.name, key);
      var prev := Lookup(last, id);
      var x := if key in data then Some(data[key]) else None;
      var pv := PresentValues(init, key);
      assert PresentValues(snapshots, key) == pv + (if x.Some? then [x.value] else []);
      CompressSnoc(pv, prev, x);
      UniqueAtMostOne(sensors, device, k);
      FedValueAt(sensors, data, device, k);
      CycleOnEntity(sensors, data, device, baseTopic, before.last, id);
      StatesOnAppend(before.events, cycle.events, StateTopic(baseTopic, id));
    }
  }

  /** Extending the reported values by at most one value extends their compression by at most that value. */
  lemma CompressSnoc(values: seq<string>, prev: Option<string>, x: Option<string>)
    ensures var more := values + (if x.Some? then [x.value] else []);
      && Compress(more, prev)
         == Compress(values, prev) + (if x.Some? && LastOr(values, prev) != x then [x.value] else [])
      && LastOr(more, prev) == (if x.Some? then x else LastOr(values, prev))
  {
    if x.Some? {
      var more := values + [x.value];
      assert more[..|more| - 1] == values;
    } else {
      assert values + [] == values;
    }
  }

  /** The cycle over the first `n + 1` sensors is the cycle over `n` followed by one step. */
  lemma CycleEffectStep(sensors: seq<Sensor>, n: nat, data: map<string, string>, device: DeviceInfo,
                        baseTopic: string, last: map<string, string>)
    requires n < |sensors|
    ensures var before := CycleEffect(sensors[..n], data, device, baseTopic, last);
      var step := StepEffect(sensors[n], data, device, baseTopic, before.last);
      CycleEffect(sensors[..n + 1], data, device, baseTopic, last) == Effect(before.events + step.events, step.last)
  {
    assert sensors[..n + 1][..n] == sensors[..n];
  }

  /** The run over the first `n + 1` status maps is the run over `n` followed by one cycle. */
  lemma RunEffectSnoc(snapshots: seq<map<string, string>>, n: nat, sensors: seq<Sensor>, device: DeviceInfo,
                      baseTopic: string, last: map<string, string>)
    requires n < |snapshots|
    ensures var before := RunEffect(snapshots[..n], sensors, device, baseTopic, last);
      var cycle := CycleEffect(sensors, snapshots[n], device, baseTopic, before.last);
      RunEffect(snapshots[..n + 1], sensors, device, baseTopic, last) == Effect(before.events + cycle.events, cycle.last)
  {
    assert snapshots[..n + 1][..n] == snapshots[..n];
  }

  /** The same step with the `n`-th status map read from the `n`-th `upsc` result. */
  lemma RunEffectPoll(polls: seq<(int, string)>, n: nat, sensors: seq<Sensor>, device: DeviceInfo,
                      baseTopic: string, last: map<string, string>)
    requires n < |polls|
    ensures var before := RunEffect(Snapshots(polls)[..n], sensors, device, baseTopic, last);
      var cycle := CycleEffect(sensors, ParseUps(polls[n].0, polls[n].1), device, baseTopic, before.last);
      RunEffect(Snapshots(polls)[..n + 1], sensors, device, baseTopic, last) == Effect(before.events + cycle.events, cycle.last)
  {
    RunEffectSnoc(Snapshots(polls), n, sensors, device, baseTopic, last);
    SnapshotAt(polls, n);
  }

  // ---------------------------------------------------------------------------
  // A worked scenario: two sensors, three cycles

  /** With two sensors a cycle is the first sensor's step followed by the second's. */
  lemma TwoSensorCycle(s1: Sensor, s2: Sensor, data: map<string, string>, device: DeviceInfo, baseTopic: string,
                       last: map<string, string>)
    ensures var a := StepEffect(s1, data, device, baseTopic, last);
      var b := StepEffect(s2, data, device, baseTopic, a.last);
      var r := CycleEffect([s1, s2], data, device, baseTopic, last);
      && Discoveries(r.events) == Discoveries(a.events) + Discoveries(b.events)
      && States(r.events) == States(a.events) + States(b.events)
      && r.last == b.last
  {
    var ss := [s1, s2];
    var a := StepEffect(s1, data, device, baseTopic, last);
    var b := StepEffect(s2, data, device, baseTopic, a.last);
    var r := CycleEffect(ss, data, device, baseTopic, last);
    assert r == Effect(a.events + b.events, b.last) by {
      var c1 := CycleEffect(ss[..1], data, device, baseTopic, last);
      assert c1 == Effect(a.events, a.last) by {
        var one := [s1];
        assert ss[..1] == one && one[..1] == one && one[..0] == [];
        CycleEffectStep(one, 0, data, device, baseTopic, last);
        assert [] + a.events == a.events;
      }
      assert ss[..2] == ss;
      CycleEffectStep(ss, 1, data, device, baseTopic, last);
    }
    DiscoveriesAppend(a.events, b.events);
    StatesAppend(a.events, b.events);
  }

  /**
   * Two sensors with different entity ids whose keys both appear in the
   * report, before anything was published: the cycle publishes both
   * discoveries and both states, and the tracker then holds both values.
   */
  lemma FirstReport(s1: Sensor, s2: Sensor, report: map<string, string>, device: DeviceInfo, baseTopic: string)
    requires EntityId(device.name, s1.key) != EntityId(device.name, s2.key)
    requires s1.key in report && s2.key in report
    ensures var id1, id2 := EntityId(device.name, s1.key), EntityId(device.name, s2.key);
      var r := CycleEffect([s1, s2], report, device, baseTopic, map[]);
      && r.last == map[id1 := report[s1.key], id2 := report[s2.key]]
      && |Discoveries(r.events)| == 2
      && States(r.events) == [Event(StateTopic(baseTopic, id1), State(report[s1.key]), true),
                              Event(StateTopic(baseTopic, id2), State(report[s2.key]), true)]
  {
    var id1, id2 := EntityId(device.name, s1.key), EntityId(device.name, s2.key);
    var v1, v2 := report[s1.key], report[s2.key];
    var one := map[id1 := v1];
    assert Tracked(s1, report, device, map[]) == one;
    assert Tracked(s2, report, device, one) == map[id1 := v1, id2 := v2];
    assert StatePublish(s1, report, device, baseTopic, map[]) == [Event(StateTopic(baseTopic, id1), State(v1), true)];
    assert StatePublish(s2, report, device, baseTopic, one) == [Event(StateTopic(baseTopic, id2), State(v2), true)] by {
      assert id2 !in one;
    }
    PairCycle(s1, s2, report, device, baseTopic, map[]);
  }

  /** The same report again: both discoveries, no state, the tracker unchanged. */
  lemma RepeatedReport(s1: Sensor, s2: Sensor, report: map<string, string>, device: DeviceInfo, baseTopic: string,
                       seen: map<string, string>)
    requires s1.key in report && s2.key in report
    requires seen == map[EntityId(device.name, s1.key) := report[s1.key], EntityId(device.name, s2.key) := report[s2.key]]
    requires EntityId(device.name, s1.key) != EntityId(device.name, s2.key)
    ensures var r := CycleEffect([s1, s2], report, device, baseTopic, seen);
      r.last == seen && |Discoveries(r.events)| == 2 && States(r.events) == []
  {
    var id1, id2 := EntityId(device.name, s1.key), EntityId(device.name, s2.key);
    assert seen[id1] == report[s1.key] && seen[id2] == report[s2.key];
    assert Tracked(s1, report, device, seen) == seen by {
      assert seen[id1 := report[s1.key]] == seen;
    }
    assert Tracked(s2, report, device, seen) == seen by {
      assert seen[id2 := report[s2.key]] == seen;
    }
    assert StatePublish(s1, report, device, baseTopic, seen) == [];
    assert StatePublish(s2, report, device, baseTopic, seen) == [];
    PairCycle(s1, s2, report, device, baseTopic, seen);
  }

  /** A later report with a new first value and without the second key: one discovery, one state. */
  lemma LaterReport(s1: Sensor, s2: Sensor, later: map<string, string>, device: DeviceInfo, baseTopic: string,
                    seen: map<string, string>)
    requires s1.key in later && s2.key !in later
    requires Changed(seen, EntityId(device.name, s1.key), later[s1.key])
    ensures var r := CycleEffect([s1, s2], later, device, baseTopic, seen);
      && |Discoveries(r.events)| == 1
      && States(r.events) == [Event(StateTopic(baseTopic, EntityId(device.name, s1.key)), State(later[s1.key]), true)]
  {
    PairCycle(s1, s2, later, device, baseTopic, seen);
    assert StatePublish(s2, later, device, baseTopic, Tracked(s1, later, device, seen)) == [];
  }

  /** The three cycles above in a row, each starting from the tracker the previous one left. */
  lemma ThreeReports(s1: Sensor, s2: Sensor, report: map<string, string>, later: map<string, string>,
                     device: DeviceInfo, baseTopic: string)
    requires EntityId(device.name, s1.key) != EntityId(device.name, s2.key)
    requires s1.key in report && s2.key in report
    requires s1.key in later && s2.key !in later && later[s1.key] != report[s1.key]
    ensures var c1 := CycleEffect([s1, s2], report, device, baseTopic, map[]);
      var c2 := CycleEffect([s1, s2], report, device, baseTopic, c1.last);
      var c3 := CycleEffect([s1, s2], later, device, baseTopic, c2.last);
      && |States(c1.events)| == 2 && States(c2.events) == [] && |States(c3.events)| == 1
      && |Discoveries(c1.events)| == 2 && |Discoveries(c2.events)| == 2 && |Discoveries(c3.events)| == 1
  {
    var c1 := CycleEffect([s1, s2], report, device, baseTopic, map[]);
    FirstReport(s1, s2, report, device, baseTopic);
    RepeatedReport(s1, s2, report, device, baseTopic, c1.last);
    assert c1.last[EntityId(device.name, s1.key)] == report[s1.key];
    LaterReport(s1, s2, later, device, baseTopic, c1.last);
  }

  /** The tracker after one sensor's step: its id set to its value when the status map has its key. */
  function Tracked(sensor: Sensor, data: map<string, string>, device: DeviceInfo,
                   last: map<string, string>): map<string, string>
  {
    if sensor.key in data then last[EntityId(device.name, sensor.key) := data[sensor.key]] else last
  }

  /** The state publish one sensor's step makes, if any, against the tracker `last`. */
  function StatePublish(sensor: Sensor, data: map<string, string>, device: DeviceInfo, baseTopic: string,
                        last: map<string, string>): seq<Event>
  {
    var id := EntityId(device.name, sensor.key);
    if sensor.key in data && Changed(last, id, data[sensor.key])
    then [Event(StateTopic(baseTopic, id), State(data[sensor.key]), true)] else []
  }

  /** A two-sensor cycle in closed form. */
  lemma PairCycle(s1: Sensor, s2: Sensor, data: map<string, string>, device: DeviceInfo, baseTopic: string,
                  last: map<string, string>)
    ensures var r := CycleEffect([s1, s2], data, device, baseTopic, last);
      var l1 := Tracked(s1, data, device, last);
      && r.last == Tracked(s2, data, device, l1)
      && |Discoveries(r.events)| == (if s1.key in data then 1 else 0) + (if s2.key in data then 1 else 0)
      && States(r.events)
         == StatePublish(s1, data, device, baseTopic, last) + StatePublish(s2, data, device, baseTopic, l1)
  {
    var a := StepEffect(s1, data, device, baseTopic, last);
    var b := StepEffect(s2, data, device, baseTopic, a.last);
    TwoSensorCycle(s1, s2, data, device, baseTopic, last);
    assert a.last == Tracked(s1, data, device, last);
    assert b.last == Tracked(s2, data, device, a.last);
    assert |Discoveries(a.events)| == (if s1.key in data then 1 else 0) by {
      StepDiscoveries(s1, data, device, baseTopic, last);
    }
    assert |Discoveries(b.events)| == (if s2.key in data then 1 else 0) by {
      StepDiscoveries(s2, data, device, baseTopic, a.last);
    }
    assert States(a.events) == StatePublish(s1, data, device, baseTopic, last) by {
      StepDiscoveries(s1, data, device, baseTopic, last);
    }
    assert States(b.events) == StatePublish(s2, data, device, baseTopic, a.last) by {
      StepDiscoveries(s2, data, device, baseTopic, a.last);
    }
  }

  // ---------------------------------------------------------------------------
  // The objects: the MQTT client and the bridge's loop state

  /** The MQTT client, seen only through what it was asked to publish. */
  class Client {
    ghost var log: seq<Event>

    constructor ()
      ensures log == []
    {
      log := [];
    }

    /** `client.publish(topic, payload, retain=...)`: appends one event to the log. */
    method Publish(topic: string, message: Message, retain: bool)
      modifies this
      ensures log == old(log) + [Event(topic, message, retain)]
    {
      log := log + [Event(topic, message, retain)];
    }
  }

  /** The state `main` keeps across cycles: the configuration, the client and `last_values`. */
  class Bridge {
    const sensors: seq<Sensor>
    const device: DeviceInfo
    const baseTopic: string
    const client: Client
    var lastValues: map<string, string>

    /** `last_values = {}` before the first cycle. */
    constructor (sensors: seq<Sensor>, device: DeviceInfo, baseTopic: string, client: Client)
      ensures this.sensors == sensors && this.device == device && this.baseTopic == baseTopic
      ensures this.client == client && lastValues == map[]
    {
      this.sensors := sensors;
      this.device := device;
      this.baseTopic := baseTopic;
      this.client := client;
      lastValues := map[];
    }

    /** The `for sensor in config["sensors"]` loop for one status map. */
    method Cycle(upsData: map<string, string>)
      modifies this, client
      ensures lastValues == CycleEffect(sensors, upsData, device, baseTopic, old(lastValues)).last
      ensures client.log == old(client.log) + CycleEffect(sensors, upsData, device, baseTopic, old(lastValues)).events
    {
      ghost var start, log0 := lastValues, client.log;
      for n := 0 to |sensors|
        invariant lastValues == CycleEffect(sensors[..n], upsData, device, baseTopic, start).last
        invariant client.log == log0 + CycleEffect(sensors[..n], upsData, device, baseTopic, start).events
      {
        HandleNext(n, upsData, start, log0);
      }
      assert sensors[..|sensors|] == sensors;
    }

    /** Sensor `n` of `Cycle`: one more sensor covered by the cycle so far. */
    method HandleNext(n: nat, upsData: map<string, string>, ghost start: map<string, string>, ghost log0: seq<Event>)
      requires n < |sensors|
      requires lastValues == CycleEffect(sensors[..n], upsData, device, baseTopic, start).last
      requires client.log == log0 + CycleEffect(sensors[..n], upsData, device, baseTopic, start).events
      modifies this, client
      ensures lastValues == CycleEffect(sensors[..n + 1], upsData, device, baseTopic, start).last
      ensures client.log == log0 + CycleEffect(sensors[..n + 1], upsData, device, baseTopic, start).events
    {
      ghost var before := CycleEffect(sensors[..n], upsData, device, baseTopic, start);
      CycleEffectStep(sensors, n, upsData, device, baseTopic, start);
      HandleSensor(sensors[n], upsData);
      ghost var step := StepEffect(sensors[n], upsData, device, baseTopic, before.last);
      assert client.log == (log0 + before.events) + step.events;
      assert (log0 + before.events) + step.events == log0 + (before.events + step.events);
    }

    /** The body of that loop for one sensor. */
    method HandleSensor(sensor: Sensor, upsData: map<string, string>)
      modifies this, client
      ensures lastValues == StepEffect(sensor, upsData, device, baseTopic, old(lastValues)).last
      ensures client.log == old(client.log) + StepEffect(sensor, upsData, device, baseTopic, old(lastValues)).events
    {
      var payloadInfo := BuildPayload(sensor, upsData, device, baseTopic);
      if payloadInfo.None? {
        return;
      }
      var (payload, value) := payloadInfo.value;
      var entityId := payload.uniqueId;
      var discoveryTopic := DiscoveryTopic(entityId);
      var stateTopic := StateTopic(baseTopic, entityId);
      client.Publish(discoveryTopic, Config(payload), true);
      if entityId !in lastValues || lastValues[entityId] != value {
        client.Publish(stateTopic, State(value), true);
        lastValues := lastValues[entityId := value];
      }
    }

    /** One iteration of `while True` (less the sleep), given what `upsc` returned. */
    method Poll(returnCode: int, stdout: string)
      modifies this, client
      ensures lastValues == CycleEffect(sensors, ParseUps(returnCode, stdout), device, baseTopic, old(lastValues)).last
      ensures client.log == old(client.log)
        + CycleEffect(sensors, ParseUps(returnCode, stdout), device, baseTopic, old(lastValues)).events
    {
      var upsData := ReadUps(returnCode, stdout);
      Cycle(upsData);
    }

    /** A finite prefix of the `while True` loop: one poll per `upsc` result. */
    method Run(polls: seq<(int, string)>)
      modifies this, client
      ensures lastValues == RunEffect(Snapshots(polls), sensors, device, baseTopic, old(lastValues)).last
      ensures client.log == old(client.log) + RunEffect(Snapshots(polls), sensors, device, baseTopic, old(lastValues)).events
    {
      ghost var start, log0 := lastValues, client.log;
      for n := 0 to |polls|
        invariant lastValues == RunEffect(Snapshots(polls)[..n], sensors, device, baseTopic, start).last
        invariant client.log == log0 + RunEffect(Snapshots(polls)[..n], sensors, device, baseTopic, start).events
      {
        PollNext(polls, n, start, log0);
      }
      assert Snapshots(polls)[..|polls|] == Snapshots(polls);
    }

    /** Poll `n` of `Run`: one more `upsc` result covered by the run so far. */
    method PollNext(polls: seq<(int, string)>, n: nat, ghost start: map<string, string>, ghost log0: seq<Event>)
      requires n < |polls|
      requires lastValues == RunEffect(Snapshots(polls)[..n], sensors, device, baseTopic, start).last
      requires client.log == log0 + RunEffect(Snapshots(polls)[..n], sensors, device, baseTopic, start).events
      modifies this, client
      ensures lastValues == RunEffect(Snapshots(polls)[..n + 1], sensors, device, baseTopic, start).last
      ensures client.log == log0 + RunEffect(Snapshots(polls)[..n + 1], sensors, device, baseTopic, start).events
    {
      ghost var before := RunEffect(Snapshots(polls)[..n], sensors, device, baseTopic, start);
      RunEffectPoll(polls, n, sensors, device, baseTopic, start);
      Poll(polls[n].0, polls[n].1);
      ghost var cycle := CycleEffect(sensors, ParseUps(polls[n].0, polls[n].1), device, baseTopic, before.last);
      assert client.log == (log0 + before.events) + cycle.events;
      assert (log0 + before.events) + cycle.events == log0 + (before.events + cycle.events);
    }
  }
}
