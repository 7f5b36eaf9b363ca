# ha-ups-mqtt in Dafny

`ha-ups-mqtt.py` is a bridge between NUT (Network UPS Tools) and an MQTT
broker for Home Assistant. On every poll it runs `upsc <ups>` and parses its
`name: value` lines into a status map. For every configured sensor whose key
is in that map, it publishes a retained Home Assistant discovery payload. It
then publishes the sensor's raw value on its state topic, but only when the
value differs from the last one it published for that entity, which it keeps
in `last_values`.

The project models the three deterministic pieces under that plumbing:

- `status_reader.dfy` (module `StatusReader`) models the parser in `read_ups`.
  Its input is the exit code and the text `upsc` printed.
  - `ReadUps` is a method with the source's loop over the lines.
  - The function `ParseUps` specifies it and carries the lemmas.
- `discovery.dfy` (module `Discovery`) models the pure builders `build_payload`,
  `build_discovery_topic` and `build_state_topic`, with entity-id derivation.
  It also has partial inverses of the topic builders.
- `poll_loop.dfy` (module `PollLoop`) models the body of `while True` in `main`.
  - The class `Bridge` holds the configuration, the client and the mutable
    `lastValues` map.
  - The MQTT client is the class `Client`, whose ghost `log` records every
    `publish(topic, payload, retain)` call.
  - `Bridge.Cycle`, `Bridge.HandleSensor`, `Bridge.Poll` and `Bridge.Run` are each
    proved equal to a specification function: `CycleEffect`, `StepEffect`, or
    `RunEffect` over `ParseUps`. The lemmas about the loop's behaviour are
    stated over those functions.
- `text.dfy` (module `Text`) models the string operations the code uses:
  `str.strip`, `str.lower`, single-character `str.replace` and
  `str.splitlines`. `IndexOf` gives the position of the first `:`, which
  covers both the `':' in line` test and the cut that `split(":", 1)` makes.
- `wrappers.dfy` holds `Option`.

The global `config["mqtt"]["base_topic"]` that `build_payload` reads is an
explicit parameter here (`baseTopic`).

The entity id lower-cases the device name and also turns its spaces into
underscores (`ha-ups-mqtt.py:41`).

## Model

| member | source | states |
|---|---|---|
| StatusReader.ReadUps | ha-ups-mqtt.py:18-25 | The dictionary the line loop builds equals `ParseUps` of the exit code and output; a non-zero exit code yields the empty map |
| StatusReader.SplitField | ha-ups-mqtt.py:22-24 | A line yields no field exactly when it has no colon; otherwise the name has no colon and neither side has surrounding whitespace |
| StatusReader.FieldRoundTrip | ha-ups-mqtt.py:22-24 | For any whitespace padding, and a value that may itself contain colons, `pad name pad : pad value pad` splits into exactly that name and value |
| StatusReader.ParseDomain | ha-ups-mqtt.py:20-24 | A key is in the parsed map if and only if some line carries a colon with that key before its first colon |
| StatusReader.ParseLastWins | ha-ups-mqtt.py:21-24 | A key holds the value of the last line that names it |
| StatusReader.ParseRendered | ha-ups-mqtt.py:17-25 | Round trip: for well-formed names and values, newline-terminated `name: value` lines with exit code 0 parse back to the listing as a dictionary, later entries winning |
| StatusReader.ParseLinesStep | ha-ups-mqtt.py:21-24 | Each further line updates the dictionary the way the loop body does: stores its split field, or leaves the dictionary alone |
| Text.Trim | ha-ups-mqtt.py:24 | The stripped text starts and ends with a non-whitespace character |
| Text.TrimSlice | ha-ups-mqtt.py:24 | `strip` keeps a contiguous slice of its input and drops only whitespace on either side |
| Text.TrimOfPadded | ha-ups-mqtt.py:24 | Stripping text that has no edge whitespace, surrounded by any whitespace, gives that text back |
| Text.TrimIdempotent | ha-ups-mqtt.py:24 | Stripping twice is stripping once |
| Text.TrimAvoids | ha-ups-mqtt.py:23-24 | Stripping never introduces a character, so a key cut before the first colon stays colon-free |
| Text.IndexOf | ha-ups-mqtt.py:22-23 | The result is the position of the first occurrence of the character, or the length when it is absent, so it decides `':' in line` and where `split(":", 1)` cuts |
| Text.SplitLines | ha-ups-mqtt.py:21 | No resulting line contains a newline, and the result is empty exactly when the text is |
| Text.SplitTerminated | ha-ups-mqtt.py:21 | Splitting newline-terminated lines returns those lines |
| Text.TerminatedSplit | ha-ups-mqtt.py:21 | Re-joining the split lines with newlines restores the text, plus a final newline if it lacked one |
| Text.Lower | ha-ups-mqtt.py:41 | Lower-casing is pointwise and length-preserving, and each character is ASCII-lowered |
| Text.LowerChar | ha-ups-mqtt.py:41 | Upper-case ASCII letters move to lower case, every other character is unchanged, and the result is never upper case |
| Text.Replace | ha-ups-mqtt.py:41 | Every occurrence of the character is replaced, and every other character stays in place |
| Discovery.EntityId | ha-ups-mqtt.py:41 | The id is as long as the name and the key together plus one; it holds the name with spaces as `_` and lower-cased, then `_`, then the key with dots as `_`, character by character |
| Discovery.EntityIdExample | ha-ups-mqtt.py:41 | "Office UPS" with "battery.charge" gives "office_ups_battery_charge" |
| Discovery.EntityIdCollision | ha-ups-mqtt.py:41 | Two distinct keys ("battery.charge", "battery_charge") derive the same entity id |
| Discovery.EntityIdDistinct | ha-ups-mqtt.py:41 | Distinct keys without underscores derive distinct entity ids under the same device |
| Discovery.BuildPayload | ha-ups-mqtt.py:34-57 | No payload exactly when the key is absent from the status map; otherwise the value is the map's entry, `unique_id` is the entity id and `state_topic` is that id's state topic |
| Discovery.PayloadFields | ha-ups-mqtt.py:43-55 | The payload has unit, icon and device class exactly when the sensor has them, with equal values; its name is the device name, a space, the friendly name; the device is passed unchanged |
| Discovery.EmptyValueStillPublished | ha-ups-mqtt.py:36-38 | An empty-string value still yields a payload, with the empty value |
| Discovery.DiscoveryTopicRoundTrip | ha-ups-mqtt.py:27-29 | The entity id can be read back from its discovery topic |
| Discovery.StateTopicRoundTrip | ha-ups-mqtt.py:31-32 | The entity id can be read back from its state topic under the base topic |
| Discovery.EntityOfDiscoveryTopic | ha-ups-mqtt.py:27-29 | Whatever id is read from a topic rebuilds that topic |
| Discovery.EntityOfStateTopic | ha-ups-mqtt.py:31-32 | Whatever id is read from a topic under the base rebuilds that topic |
| Discovery.TopicsInjective | ha-ups-mqtt.py:27-32 | Different entity ids get different discovery topics and different state topics |
| Discovery.DiscoveryIsNotState | ha-ups-mqtt.py:27-32 | No discovery topic is ever a state topic |
| PollLoop.StepEffect | ha-ups-mqtt.py:92-107 | Without data, a sensor does nothing. With data, it publishes a retained discovery to its entity's discovery topic, then a retained state only if the value differs from the recorded one; afterwards the tracker holds the value |
| PollLoop.SnapshotAt | ha-ups-mqtt.py:89 | The status map of the `i`-th poll of a run is `read_ups` of the `i`-th `upsc` result |
| PollLoop.CycleWithoutData | ha-ups-mqtt.py:92-94 | Sensors whose keys are all missing publish nothing and leave the tracker unchanged |
| PollLoop.FailedPollPublishesNothing | ha-ups-mqtt.py:18-19 | A failed `upsc` run publishes nothing and leaves the tracker unchanged, whatever it printed |
| PollLoop.CycleUntouched | ha-ups-mqtt.py:105-107 | An entity that no sensor with data maps to keeps its tracker entry, or its absence |
| PollLoop.CycleLastWins | ha-ups-mqtt.py:91-107 | After a cycle, an entity holds the value of the last sensor with data that maps to it |
| PollLoop.CycleNewEntries | ha-ups-mqtt.py:105-107 | Every new tracker entry belongs to some sensor with data |
| PollLoop.CycleDiscoveries | ha-ups-mqtt.py:91-102 | A cycle publishes, in configuration order, exactly one discovery payload per sensor with data, whatever the tracker holds |
| PollLoop.CycleWellFormed | ha-ups-mqtt.py:97-106 | Every publish is retained. A discovery goes to the topic of its payload's `unique_id`, and the payload's `state_topic` is that id's state topic. A state publish directly follows its entity's discovery and goes to the announced `state_topic` |
| PollLoop.CycleStates | ha-ups-mqtt.py:104-107 | With distinct entity ids, the state publishes are exactly the sensors with data whose value differs from the tracker before the cycle, in order |
| PollLoop.CycleQuiet | ha-ups-mqtt.py:104-107 | When every value is already recorded, a cycle publishes no state and keeps the tracker |
| PollLoop.CycleRecords | ha-ups-mqtt.py:105-107 | After a cycle, every sensor with data has its value recorded, when sensors sharing an id share a value |
| PollLoop.RepeatedCycle | ha-ups-mqtt.py:88-107 | Dedup: a second cycle on the same status map republishes the same discoveries, no state, and leaves the tracker as it was |
| PollLoop.FedValueAt | ha-ups-mqtt.py:35-41 | A sensor whose entity id no other sensor shares is the only source of that id's value: its own entry in the status map, or nothing when the key is absent |
| PollLoop.StepOnEntity | ha-ups-mqtt.py:92-107 | One sensor's step touches an entity's tracker entry and state topic only when that sensor feeds it, and then publishes the value exactly when it differs from the recorded one |
| PollLoop.CycleOnEntity | ha-ups-mqtt.py:91-107 | For an entity at most one sensor maps to, a cycle sets its tracker entry to that sensor's value, and its state topic carries that value exactly when it differs from the one recorded before the cycle |
| PollLoop.EntityRun | ha-ups-mqtt.py:86-107 | In any configuration, for any sensor whose entity id no other sensor shares, the values on its state topic over a run are its reported values with each value equal to the previous one dropped, and the tracker ends at the last reported value. A cycle without its key neither publishes on that topic nor resets the tracker |
| PollLoop.CompressNoRepeats | ha-ups-mqtt.py:105 | Those published values never repeat twice in a row and never start with the value already recorded, and the last one is the last reported |
| PollLoop.PairCycle | ha-ups-mqtt.py:91-107 | A two-sensor cycle is the first sensor's step followed by the second's, judged against the tracker the first one left |
| PollLoop.FirstReport | ha-ups-mqtt.py:86-107 | Two fresh, distinct sensors with data: two discoveries and both state values, in order |
| PollLoop.RepeatedReport | ha-ups-mqtt.py:104-107 | The same report again: two discoveries, no state, and the tracker unchanged |
| PollLoop.LaterReport | ha-ups-mqtt.py:92-107 | A report with a new first value and without the second key: one discovery and one state |
| PollLoop.ThreeReports | ha-ups-mqtt.py:88-107 | The three cycles in a row publish 2, 0 and 1 states and 2, 2 and 1 discoveries |
| PollLoop.Client.Publish | ha-ups-mqtt.py:102 | Publishing appends exactly one `(topic, payload, retain)` event to the log |
| PollLoop.Bridge.constructor | ha-ups-mqtt.py:86 | The bridge starts with an empty `last_values` |
| PollLoop.Bridge.HandleSensor | ha-ups-mqtt.py:92-107 | One loop iteration appends `StepEffect`'s publishes to the log and leaves `last_values` as `StepEffect` says |
| PollLoop.Bridge.HandleNext | ha-ups-mqtt.py:91-107 | Handling sensor `n` extends the publishes and tracker of the cycle over the first `n` sensors to those over the first `n + 1` |
| PollLoop.Bridge.Cycle | ha-ups-mqtt.py:91-107 | The loop over the sensors appends exactly the cycle's publishes, in order, and leaves the cycle's tracker |
| PollLoop.Bridge.Poll | ha-ups-mqtt.py:89-107 | One poll is `read_ups` on the given `upsc` result followed by the cycle on its map |
| PollLoop.Bridge.PollNext | ha-ups-mqtt.py:88-107 | Poll `n` extends the publishes and tracker of the run over the first `n` `upsc` results to those over the first `n + 1` |
| PollLoop.Bridge.Run | ha-ups-mqtt.py:88-109 | A finite prefix of `while True` publishes the run's events and leaves its tracker, the tracker carried over between polls |

## Left out

- The `upsc` subprocess (`ha-ups-mqtt.py:17`) is process I/O. Its exit code and output text are inputs to `ReadUps`, `ParseUps` and `Bridge.Poll`.
- The paho-mqtt client's construction, credentials, `connect` and `loop_start` background thread (`ha-ups-mqtt.py:74-84`) are network I/O and concurrency. `publish` is modelled as appending to a ghost log; delivery and failure are not modelled.
- `json.dumps` of the discovery payload (`ha-ups-mqtt.py:102`) is serialisation. The payload stays a structured `Payload` value.
- Loading the YAML configuration (`ha-ups-mqtt.py:11-13`) is file I/O. The sensors, device info and base topic are inputs, and optional sensor fields are strings.
- The device-info dictionary with its hardcoded model, manufacturer and default `sw_version` (`ha-ups-mqtt.py:66-72`) is configuration plumbing. `DeviceInfo` is an input.
- `time.sleep` and the non-terminating `while True` (`ha-ups-mqtt.py:88, 109`) involve a clock and infinite execution. `Bridge.Run` covers any finite sequence of polls with no delay.
- Text.SplitLines: only `\n` ends a line. Python's `splitlines` also splits on `\r`, `\r\n`, form feeds and Unicode line separators.
- Text.Trim: only space and tab count as whitespace. Python's `strip` also removes newlines, other ASCII control whitespace and Unicode spaces.
- Text.Lower: only ASCII letters are lowered. Python's `lower` also applies Unicode case mapping.
- PollLoop.CycleStates, PollLoop.CycleRecords and PollLoop.RepeatedCycle assume the configuration is free of entity-id collisions: distinct ids, or equal values under a shared id. With colliding ids the code's own dedup does not hold. `EntityIdCollision` shows such a collision, and `CycleLastWins` says what the tracker then holds.
- Discovery.Sensor: `key` and `friendly_name` are always-present strings. In the source a sensor without `key` raises `KeyError` at `ha-ups-mqtt.py:35`, and one without `friendly_name` raises at `ha-ups-mqtt.py:44` when its key has data; the model has no such failure.
