# Smart MAIC integration: a Dafny model

The Smart MAIC integration connects Home Assistant to a Smart MAIC energy
meter. The meter pushes a JSON object of short metric keys (`V1`, `A2`,
`Wh`, `T3`, `OUT`, ...) and numbers. This model covers only the decision
logic around that object:

- **The coordinator** (`Coordinator.SmartMaicCoordinator`) holds the latest
  snapshot. It also holds the time of the last update, truncated to whole
  seconds, and an expiry interval. A poll clears the snapshot once it is
  stale, and writes go unchanged to the device client.
  - The device client is `Gateway.SmartMaic`. It is a class with a log of
    the requests it was handed and a flag for whether the device answers.
  - The clock is a parameter that counts microseconds.
- **The description tables and entity selection** cover sensors, numbers
  and the switch.
  - The tables are generated from key-suffix rules.
  - An entity is built for each snapshot key that has a table entry, in
    snapshot order.
  - A three-phase meter, recognised by `A1`, also gets five total sensors.
    Each one sums one quantity over the three phases.
- **Entity identity and state.**
  - The unique id is `devid-key`.
  - The display name takes a suffix when the key ends in a digit from 1 to 5.
  - The switch reads on exactly when `OUT` is 1. A switch write sends the
    value and then updates the snapshot optimistically.
  - A number write only forwards the value.

The snapshot (`Snapshot.Snapshot`) is a sequence of key/value pairs with
distinct keys. This keeps Python's dict order, which decides the entity
order. Snapshot values are integers.

Where the code and the natural reading differ, the model follows the code:

- The total sensor on a non-empty snapshot that lacks a phase key is
  modelled as the `KeyError` the code raises (`Sensor.TotalNativeValue`).
  It is not excluded by a precondition.
- `is_on` on a snapshot without `OUT` is likewise the `KeyError` of
  `data[key]` (`Switch.IsOn`).
- `coordinator.py` imports the option key `EXPIRATION` and the default
  `DEFAULT_EXPIRATION` from `const.py`, which does not define them. Both are
  therefore constructor parameters of the coordinator.

One consequence worth knowing is proved in `Sensor.SetupIdsDistinct`. A
total sensor takes its unique id from its description key (`A`, `W`, `rW`,
`Wh`, `rWh`), which is also the key of a single-phase sensor. So the sensors
of one setup have distinct unique ids exactly when the snapshot is not both
three-phase and carrying one of those five keys.

## Model

| member | source | states |
|---|---|---|
| Gateway.SmartMaic.GetConfig | custom_components/smart_maic/smart_maic.py:36-39 | one configuration read is logged; the result is the device configuration, or `ConnectionError` when the device does not answer |
| Gateway.SmartMaic.SetMqttConfig | custom_components/smart_maic/smart_maic.py:41-57 | one MQTT configuration write is logged; the result is the configuration, or `ConnectionError` |
| Gateway.SmartMaic.SetConsumption | custom_components/smart_maic/smart_maic.py:59-62 | a consumption write with exactly the given key and value is logged; it fails with `ConnectionError` when the device does not answer |
| Gateway.SmartMaic.SetDrySwitch | custom_components/smart_maic/smart_maic.py:64-68 | a dry-switch write with exactly the given value is logged; it fails with `ConnectionError` when the device does not answer |
| Coordinator.TruncSec | custom_components/smart_maic/coordinator.py:50 | the result is the whole second at or before the microsecond reading |
| Coordinator.IntervalSeconds | custom_components/smart_maic/coordinator.py:41-45 | the configured option when it is present and non-zero, otherwise the default |
| Coordinator.Polled | custom_components/smart_maic/coordinator.py:56-69 | a poll changes the snapshot exactly when there was an update, the data is non-empty and the whole-second elapsed time is at least the interval; it then clears it to empty; the update time and the interval never change |
| Coordinator.PollBeforeFirstUpdate | custom_components/smart_maic/coordinator.py:60-65 | before any update, a poll leaves the state as it is |
| Coordinator.PollTwice | custom_components/smart_maic/coordinator.py:56-69 | on a clock that does not run backwards, polling twice equals polling once at the later time, so expiry is idempotent |
| Coordinator.PollAfterPush | custom_components/smart_maic/coordinator.py:47-69 | a pushed snapshot survives every poll until `interval` whole seconds separate the push from the poll, and is cleared then unless it is empty |
| Coordinator.TruncationMargin | custom_components/smart_maic/coordinator.py:50-65 | truncating both stamps to seconds can make the data expire up to a second early, but never late |
| Coordinator.SmartMaicCoordinator.constructor | custom_components/smart_maic/coordinator.py:29-39 | the coordinator starts with an empty snapshot, no update time, and the interval taken from the options |
| Coordinator.SmartMaicCoordinator.SetUpdateInterval | custom_components/smart_maic/coordinator.py:41-45 | the interval becomes the option or the default; the snapshot and the update time stay |
| Coordinator.SmartMaicCoordinator.AsyncSetUpdatedData | custom_components/smart_maic/coordinator.py:47-50 | the snapshot becomes the pushed one, the update time becomes the current time truncated to seconds, and the interval stays |
| Coordinator.SmartMaicCoordinator.UpdateData | custom_components/smart_maic/coordinator.py:56-69 | the new state is `Polled` of the old one, and the returned snapshot is the new data |
| Coordinator.SmartMaicCoordinator.GetConfig | custom_components/smart_maic/coordinator.py:71-73 | as written: an MQTT configuration write is sent, and the coordinator is unchanged |
| Coordinator.SmartMaicCoordinator.ReadConfig | custom_components/smart_maic/coordinator.py:71-73 | as intended: only a configuration read is sent, with the same result, and the coordinator is unchanged |
| Coordinator.SmartMaicCoordinator.SetMqttConfig | custom_components/smart_maic/coordinator.py:79-81 | one MQTT configuration write is sent, and the coordinator is unchanged |
| Coordinator.SmartMaicCoordinator.SetConsumption | custom_components/smart_maic/coordinator.py:87-89 | key and value reach the client unchanged; the call succeeds exactly when the device answers; the coordinator's data, update time and interval are untouched |
| Coordinator.SmartMaicCoordinator.SetDrySwitch | custom_components/smart_maic/coordinator.py:95-97 | the value reaches the client unchanged; the call succeeds exactly when the device answers; the coordinator is untouched |
| Coordinator.GetConfigSends | custom_components/smart_maic/coordinator.py:71-73 | asking a fresh coordinator for the configuration sends exactly one MQTT configuration write |
| Coordinator.ReadConfigSends | custom_components/smart_maic/coordinator.py:71-73 | with the corrected read, the same request sends exactly one configuration read |
| Snapshot.Get | custom_components/smart_maic/sensor.py:235 | `None` exactly when the key is absent, otherwise the value stored under it |
| Snapshot.Put | custom_components/smart_maic/switch.py:61-62 | the key set gains the key; an existing key keeps its position and takes the value; a new key is appended; other entries stay |
| Snapshot.PutThenGet | custom_components/smart_maic/switch.py:61-62 | after a write, the written key reads the new value and every other key reads as before |
| Snapshot.SelectKeys | custom_components/smart_maic/sensor.py:213-214 | the snapshot keys that the table has, each once, and no others |
| Snapshot.SelectKeysInOrder | custom_components/smart_maic/sensor.py:213-214 | the selected keys occur in the snapshot in the order they are selected, which is the comprehension's iteration order |
| Snapshot.SelectKeysCount | custom_components/smart_maic/sensor.py:210-216 | one selected key per snapshot key that the table knows |
| Entity.UniqueId | custom_components/smart_maic/entity.py:41-46 | the device id, a dash, then the description key |
| Entity.UniqueIdInjective | custom_components/smart_maic/entity.py:41-46 | two entities of one device share a unique id exactly when their keys are equal |
| Entity.DisplayName | custom_components/smart_maic/entity.py:64-70 | the translated name, followed by a space and the key's last character when that is a digit 1 to 5, and by nothing otherwise |
| Entity.DeviceInfoOf | custom_components/smart_maic/entity.py:48-62 | one identifier `(smart_maic, devid)`; name, manufacturer and model from the entry; the URL is `http://` followed by the address |
| Sensor.PhaseDescriptions | custom_components/smart_maic/sensor.py:35-95 | exactly the seven keys `V`, `A`, `W`, `rW`, `Wh`, `rWh` and `PF`, each followed by the index, and seven distinct entries |
| Sensor.PhaseKeysDistinct | custom_components/smart_maic/sensor.py:35-95 | the seven phase keys differ for every index |
| Sensor.PhaseEntries | custom_components/smart_maic/sensor.py:46-87 | the current, power, return-power, consumption and return entries sit under their keys with their descriptions |
| Sensor.PhaseKeyed | custom_components/smart_maic/sensor.py:35-95 | every phase description's key equals its map key |
| Sensor.PointDescription | custom_components/smart_maic/sensor.py:98-106 | only the key `T` followed by the index, under its own key |
| Sensor.ChannelDescription | custom_components/smart_maic/sensor.py:109-122 | only `Ch` and `TCh` followed by the index, two distinct entries under their own keys |
| Sensor.OtherDescriptions | custom_components/smart_maic/sensor.py:140-153 | exactly the keys `ADC` and `Temp`, each under its own key |
| Sensor.PieceKeys | custom_components/smart_maic/sensor.py:125-139 | the literal key sets of the phase, point and channel pieces merged into the sensor table |
| Sensor.EntityDescriptions | custom_components/smart_maic/sensor.py:125-154 | the table's keys are the union of phases "", 1, 2 and 3, points 1 to 5, channels 1 and 2, `ADC` and `Temp` |
| Sensor.EntityDescriptionsCount | custom_components/smart_maic/sensor.py:125-154 | the sensor table has 39 entries, so the merged pieces are pairwise disjoint |
| Sensor.EntityDescriptionsKeyed | custom_components/smart_maic/sensor.py:125-154 | every description in the sensor table sits under its own key |
| Sensor.PhaseTotalKeys | custom_components/smart_maic/sensor.py:156-201 | five totals, with device keys `A`, `W`, `rW`, `TWh` and `rTWh`; the description key equals the device key, except that `TWh` carries `Wh` and `rTWh` carries `rWh`; the description keys are distinct |
| Sensor.PhaseTotalsMirrorSinglePhase | custom_components/smart_maic/sensor.py:156-201 | each total describes the same quantity as the single-phase sensor of its description key, differing only in the translation key |
| Sensor.SelectSensors | custom_components/smart_maic/sensor.py:210-216 | one per-key sensor per snapshot key that the table has, and no others; each has the table's description and the id `devid-key`; keys are distinct |
| Sensor.SelectSensorsInOrder | custom_components/smart_maic/sensor.py:210-216 | the per-key sensors come in the order their keys have in the snapshot |
| Sensor.TotalSensors | custom_components/smart_maic/sensor.py:218-226 | five total sensors in table order when the snapshot has `A1`, none otherwise, each with its description and id `devid-key` |
| Sensor.SetupCount | custom_components/smart_maic/sensor.py:204-226 | a setup builds one sensor per snapshot key in the sensor table, plus five totals exactly when the snapshot has `A1` |
| Sensor.SetupIdsDistinct | custom_components/smart_maic/sensor.py:210-226 | the sensors of one setup have distinct unique ids exactly when the snapshot is not both three-phase and carrying `A`, `W`, `rW`, `Wh` or `rWh` |
| Sensor.TotalIdsDistinct | custom_components/smart_maic/sensor.py:218-226 | the five total sensors have distinct unique ids |
| Sensor.NativeValue | custom_components/smart_maic/sensor.py:232-236 | `None` exactly when the key is absent, otherwise the snapshot's value |
| Sensor.TotalNativeValue | custom_components/smart_maic/sensor.py:242-254 | `None` on an empty snapshot; the sum of the three phase values when all are present; otherwise a `KeyError`, exactly then, and for the first missing phase key |
| Sensor.TotalSumsPhaseSensors | custom_components/smart_maic/sensor.py:218-254 | the three phase keys of every total are in the sensor table, and the total equals the sum of what the three per-key sensors read |
| Sensor.IndexedNames | custom_components/smart_maic/entity.py:64-70 | every phase, point and channel sensor with index 1 to 5 is named the translated name, a space and the index |
| Sensor.UnindexedNames | custom_components/smart_maic/entity.py:64-70 | the single-phase sensors, `ADC` and `Temp` keep the translated name unchanged |
| Sensor.TotalNames | custom_components/smart_maic/entity.py:64-70 | the total sensors keep the translated name unchanged |
| Number.PhaseDescriptions | custom_components/smart_maic/number.py:29-42 | exactly the key `Wh` followed by the index, under its own key, bounded by 0 and `sys.maxsize`, disabled by default |
| Number.EntityDescriptions | custom_components/smart_maic/number.py:45-50 | the union of phases "", 1, 2 and 3; every description under its own key, bounded by 0 and `sys.maxsize`, and disabled by default |
| Number.EntityDescriptionsKeys | custom_components/smart_maic/number.py:45-50 | the number table has exactly the four keys `Wh`, `Wh1`, `Wh2` and `Wh3` |
| Number.SelectNumbers | custom_components/smart_maic/number.py:59-65 | one number per snapshot key that the table has, and no others; each has the table's description and the id `devid-key`; the ids are distinct |
| Number.SelectNumbersInOrder | custom_components/smart_maic/number.py:59-65 | the numbers come in the order their keys have in the snapshot |
| Number.SetupCount | custom_components/smart_maic/number.py:59-65 | one number per counter among `Wh`, `Wh1`, `Wh2` and `Wh3` that the snapshot reports |
| Number.NativeValue | custom_components/smart_maic/number.py:74-78 | `None` exactly when the key is absent, otherwise the snapshot's value |
| Number.SmartMaicNumber.constructor | custom_components/smart_maic/entity.py:27-46 | the number keeps its coordinator and description, and its unique id is `devid-key` |
| Number.SmartMaicNumber.SetNativeValue | custom_components/smart_maic/number.py:80-83 | the counter's key and the value reach the client unchanged; the coordinator, and so the value shown, is not touched |
| Switch.EntityDescriptions | custom_components/smart_maic/switch.py:19-23 | the only key is `OUT`, under its own key |
| Switch.SetupEntities | custom_components/smart_maic/switch.py:26-38 | exactly one switch, with id `devid-OUT`, when the snapshot has `OUT`, and none otherwise |
| Switch.IsOn | custom_components/smart_maic/switch.py:46-49 | `KeyError` exactly when the key is absent; on exactly when the value is 1, so any other value reads off |
| Switch.WrittenStateReads | custom_components/smart_maic/switch.py:51-63 | after writing 1 the switch reads on, and after writing 0 it reads off |
| Switch.WriteChangesOnlyItsKey | custom_components/smart_maic/switch.py:59-63 | the optimistic update leaves every other key's value and switch state as it was |
| Switch.WrittenKeyPresent | custom_components/smart_maic/switch.py:59-63 | after the update the key is present, even on a cleared snapshot, so `is_on` no longer raises |
| Switch.SmartMaicSwitch.constructor | custom_components/smart_maic/entity.py:27-46 | the switch keeps its coordinator and description, and its unique id is `devid-key` |
| Switch.SmartMaicSwitch.SetDrySwitch | custom_components/smart_maic/switch.py:59-63 | the value is forwarded; on success, the snapshot becomes the old one with only the key set to the value, and the update time becomes now in seconds; on a connection error, the snapshot and the update time are unchanged |
| Switch.SmartMaicSwitch.TurnOn | custom_components/smart_maic/switch.py:51-53 | sends 1; on success the snapshot has the key set to 1, the switch reads on and the update time becomes now in seconds; on failure the snapshot, what the switch shows and the update time are unchanged; the interval never changes |
| Switch.SmartMaicSwitch.TurnOff | custom_components/smart_maic/switch.py:55-57 | sends 0; on success the snapshot has the key set to 0, the switch reads off and the update time becomes now in seconds; on failure the snapshot, what the switch shows and the update time are unchanged; the interval never changes |

## Left out

- The HTTP client in `smart_maic.py` is not modelled. This covers URL building, login by PIN, `urlencode` and the mapping of HTTP errors to `ConnectionError`. Only whether the device answers is kept.
- `Gateway.SmartMaic.SetMqttConfig`: the configuration read before and after the MQTT write is folded into one logged write.
- `__init__.py` is not part of this model. It covers the MQTT subscription, the polling loop that waits for the first JSON object, and platform forwarding. They are I/O and asynchronous orchestration.
- `config_flow.py` is not part of this model. It is a UI flow around network calls.
- The Home Assistant framework is left out: listener notification in `async_set_updated_data`, executor scheduling, timer-driven polling, the entity registry and `super().name`. Asynchronous wrappers such as `async_get_config` are modelled by the synchronous methods they schedule.
- Other code may run at the `await` in `_set_dry_swtich`, between the device write and the snapshot copy. The model runs the two steps one after the other without interruption.
- Snapshot values are integers. Float values and the sum of floats are not modelled.
- Home Assistant's initial `data = None` is modelled as the empty snapshot. Both are falsy, and both take the same branches in `_update_data` and in the total sensor.
- The debug `print` in `async_set_native_value` and the debug logging are left out.
- `Sensor.PhaseTotalsMirrorSinglePhase`: it does not state that each total's translation key is the single-phase one prefixed with `total_`. The translation keys are in the table but not compared.
- `Number.SYS_MAXSIZE`: this is `sys.maxsize` of a 64-bit interpreter. The value on 32-bit builds is not modelled.
- `Sensor.KeySensors`, `Sensor.SetupEntities` and `Number.SetupEntities` carry no contract of their own. They apply `SelectSensors`/`SelectNumbers` to the fixed table. Their properties are stated by the lemmas `Sensor.SetupCount`, `Sensor.SetupIdsDistinct` and `Number.SetupCount`, together with the contracts and order lemmas of the selection functions.
- Translations of the names and the `mdi:` icon are data in the tables. Nothing is proved about them.

## Findings

| source | as written | input that shows it | evidently intended | confidence | as-written member | corrected member |
|---|---|---|---|---|---|---|
| custom_components/smart_maic/coordinator.py:71-73 | `_get_config`, documented as getting the configuration, calls the client's `set_mqtt_config`, exactly as `_set_mqtt_config` does | any call of `async_get_config` on a reachable device: the request log is `[WriteMqttConfig]`, which rewrites the device's MQTT settings | call the client's `get_config`, which only reads `webinit` | medium, not executed | Coordinator.GetConfigSends | Coordinator.ReadConfigSends |
