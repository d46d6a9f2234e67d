/** The number platform: the consumption counters a user can set, one per
    phase, and the write that forwards a new value to the device. */
module Number {
  import opened Values
  import opened Snapshot
  import opened Entity
  import Gateway
  import Coordinator

  /** `sys.maxsize` of a 64-bit CPython: the largest value a counter can be set to. */
  const SYS_MAXSIZE: int := 0x7FFF_FFFF_FFFF_FFFF

  datatype NumberDeviceClass = Energy
  datatype NumberMode = Box

  /** A `NumberEntityDescription`, with the fields the table sets. */
  datatype NumberDescription = NumberDescription(
    key: string,
    translationKey: string,
    deviceClass: NumberDeviceClass,
    mode: NumberMode,
    unit: Unit,
    minValue: int,
    maxValue: int,
    enabledByDefault: bool)

  /** `phase_descriptions(index)`: the consumption counter `Wh<index>`,
      disabled by default, accepting 0 to `sys.maxsize` in a box. */
  function PhaseDescriptions(index: string): (r: map<string, NumberDescription>)
    ensures r.Keys == {"Wh" + index}
    ensures Keyed(r) && Bounded(r)
  {
    map["Wh" + index := NumberDescription("Wh" + index, "consumption", Energy, Box, WattHour, 0, SYS_MAXSIZE, false)]
  }

  /** Every description sits under its own key. */
  predicate Keyed(m: map<string, NumberDescription>) {
    forall k :: k in m ==> m[k].key == k
  }

  /** Every description accepts the values 0 to `sys.maxsize`, and its
      entity starts disabled in the entity registry. */
  predicate Bounded(m: map<string, NumberDescription>) {
    forall k :: k in m ==> m[k].minValue == 0 && m[k].maxValue == SYS_MAXSIZE && !m[k].enabledByDefault
  }

  /** Merging tables that are keyed and bounded gives such a table again. */
  lemma MergeKeyedBounded(p0: map<string, NumberDescription>, p1: map<string, NumberDescription>,
                          p2: map<string, NumberDescription>, p3: map<string, NumberDescription>)
    requires Keyed(p0) && Keyed(p1) && Keyed(p2) && Keyed(p3)
    requires Bounded(p0) && Bounded(p1) && Bounded(p2) && Bounded(p3)
    ensures Keyed(p0 + p1 + p2 + p3) && Bounded(p0 + p1 + p2 + p3)
  {
  }

  /** `ENTITY_DESCRIPTIONS`: the counters of phases "", 1, 2 and 3, each
      under its own key and bounded by 0 and `sys.maxsize`. */
  function EntityDescriptions(): (r: map<string, NumberDescription>)
    ensures r.Keys == PhaseDescriptions("").Keys + PhaseDescriptions("1").Keys
      + PhaseDescriptions("2").Keys + PhaseDescriptions("3").Keys
    ensures Keyed(r) && Bounded(r)
  {
    var p0, p1, p2, p3 := PhaseDescriptions(""), PhaseDescriptions("1"), PhaseDescriptions("2"), PhaseDescriptions("3");
    MergeKeyedBounded(p0, p1, p2, p3);
    p0 + p1 + p2 + p3
  }

  /** The number table holds the four counters `Wh`, `Wh1`, `Wh2` and `Wh3`. */
  lemma EntityDescriptionsKeys()
    ensures EntityDescriptions().Keys == {"Wh", "Wh1", "Wh2", "Wh3"}
    ensures |EntityDescriptions()| == 4
  {
    assert "Wh" + "" == "Wh" && "Wh" + "1" == "Wh1" && "Wh" + "2" == "Wh2" && "Wh" + "3" == "Wh3";
    assert EntityDescriptions().Keys == {"Wh", "Wh1", "Wh2", "Wh3"};
  }

  /** A number entity: its unique id and its description. */
  datatype NumberEntity = NumberEntity(uniqueId: string, description: NumberDescription)

  /** The numbers' keys occur in the snapshot in the numbers' order. */
  predicate InSnapshotOrder(data: Snapshot, es: seq<NumberEntity>) {
    forall i, j :: 0 <= i < j < |es| ==> Before(data, es[i].description.key, es[j].description.key)
  }

  /** The numbers a snapshot gives rise to for a keyed table: one per
      snapshot key the table describes, in snapshot order, each with the
      table's description of that key and the unique id `devid-key`. */
  function SelectNumbers(entry: ConfigEntry, data: Snapshot, table: map<string, NumberDescription>): (r: seq<NumberEntity>)
    requires Keyed(table)
    ensures |r| == |Keys(data) * table.Keys|
    ensures forall i :: 0 <= i < |r| ==>
      && r[i].description.key in Keys(data)
      && r[i].description.key in table
      && r[i].description == table[r[i].description.key]
      && r[i].uniqueId == UniqueId(entry.devid, r[i].description.key)
    ensures forall k :: k in Keys(data) && k in table ==>
      exists i :: 0 <= i < |r| && r[i].description.key == k
    ensures forall i, j :: 0 <= i < j < |r| ==> r[i].uniqueId != r[j].uniqueId
  {
    var ks := SelectKeys(data, table);
    SelectKeysCount(data, table);
    var r := seq(|ks|, i requires 0 <= i < |ks| => NumberEntity(UniqueId(entry.devid, ks[i]), table[ks[i]]));
    assert forall i :: 0 <= i < |r| ==> r[i].description.key == ks[i];
    assert forall i, j :: 0 <= i < j < |r| ==> r[i].uniqueId != r[j].uniqueId by {
      forall i, j | 0 <= i < j < |r| ensures r[i].uniqueId != r[j].uniqueId {
        UniqueIdInjective(entry.devid, ks[i], ks[j]);
      }
    }
    r
  }

  /** The numbers come in the order their keys have in the snapshot. */
  lemma SelectNumbersInOrder(entry: ConfigEntry, data: Snapshot, table: map<string, NumberDescription>)
    requires Keyed(table)
    ensures InSnapshotOrder(data, SelectNumbers(entry, data, table))
  {
    SelectKeysInOrder(data, table);
  }

  /** `async_setup_entry`: the numbers of the number table. */
  function SetupEntities(entry: ConfigEntry, data: Snapshot): seq<NumberEntity> {
    SelectNumbers(entry, data, EntityDescriptions())
  }

  /** One number per counter among `Wh`, `Wh1`, `Wh2` and `Wh3` that the
      snapshot reports, and no other. */
  lemma SetupCount(entry: ConfigEntry, data: Snapshot)
    ensures |SetupEntities(entry, data)| == |Keys(data) * {"Wh", "Wh1", "Wh2", "Wh3"}|
  {
    EntityDescriptionsKeys();
  }

  /** `native_value`: the snapshot's value under the description key, or
      `None` when the key is absent. */
  function NativeValue(data: Snapshot, key: string): (r: Option<int>)
    ensures r.None? <==> key !in Keys(data)
    ensures forall i :: 0 <= i < |data| && data[i].0 == key ==> r == Some(data[i].1)
  {
    Get(data, key)
  }

  /** A `SmartMaicNumber`: the coordinator it reads and writes through, and
      its description. */
  class SmartMaicNumber {
    const coordinator: Coordinator.SmartMaicCoordinator
    const description: NumberDescription
    const uniqueId: string

    constructor (coordinator: Coordinator.SmartMaicCoordinator, entry: ConfigEntry, description: NumberDescription)
      ensures this.coordinator == coordinator && this.description == description
      ensures uniqueId == UniqueId(entry.devid, description.key)
    {
      this.coordinator := coordinator;
      this.description := description;
      uniqueId := UniqueId(entry.devid, description.key);
    }

    /** The value shown, read from the coordinator's current snapshot. */
    function Value(): Option<int>
      reads coordinator
    {
      NativeValue(coordinator.data, description.key)
    }

    /** `async_set_native_value`: hand the key and the value to the
        coordinator's consumption setter; the snapshot is not touched, so
        the value shown changes only when the device next reports. */
    method SetNativeValue(value: int) returns (r: Outcome<()>)
      modifies coordinator.smartMaic`sent
      ensures coordinator.smartMaic.sent == old(coordinator.smartMaic.sent) + [Gateway.WriteConsumption(description.key, value)]
      ensures r.Ok? <==> coordinator.smartMaic.reachable
      ensures unchanged(coordinator)
      ensures Value() == old(Value())
    {
      r := coordinator.SetConsumption(description.key, value);
    }
  }
}
