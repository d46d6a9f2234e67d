/** The switch platform: the dry-contact output `OUT`, read from the
    snapshot and set through the coordinator with an optimistic update of
    the snapshot. */
module Switch {
  import opened Values
  import opened Snapshot
  import opened Entity
  import Gateway
  import Coordinator

  /** A `SwitchEntityDescription`, with the fields the table sets. */
  datatype SwitchDescription = SwitchDescription(key: string, translationKey: string, icon: string)

  const OUT_DESCRIPTION := SwitchDescription("OUT", "dry_switch", "mdi:home-switch")

  /** `ENTITY_DESCRIPTIONS`: the one output, under its own key. */
  function EntityDescriptions(): (r: map<string, SwitchDescription>)
    ensures r.Keys == {"OUT"} && r["OUT"].key == "OUT"
  {
    map["OUT" := OUT_DESCRIPTION]
  }

  /** A switch entity: its unique id and its description. */
  datatype SwitchEntity = SwitchEntity(uniqueId: string, description: SwitchDescription)

  /** `async_setup_entry`: one switch exactly when the snapshot reports the
      output, with the unique id `devid-OUT`. */
  function SetupEntities(entry: ConfigEntry, data: Snapshot): (r: seq<SwitchEntity>)
    ensures |r| == if "OUT" in Keys(data) then 1 else 0
    ensures forall i :: 0 <= i < |r| ==> r[i] == SwitchEntity(UniqueId(entry.devid, "OUT"), OUT_DESCRIPTION)
  {
    var table := EntityDescriptions();
    var ks := SelectKeys(data, table);
    SelectKeysCount(data, table);
    assert Keys(data) * table.Keys == if "OUT" in Keys(data) then {"OUT"} else {};
    seq(|ks|, i requires 0 <= i < |ks| => SwitchEntity(UniqueId(entry.devid, ks[i]), table[ks[i]]))
  }

  /** `is_on`: whether the snapshot's value under the key is 1; a missing
      key raises `KeyError`, since the property indexes the data. */
  function IsOn(data: Snapshot, key: string): (r: Raised<bool>)
    ensures r.KeyError? <==> key !in Keys(data)
    ensures r.KeyError? ==> r.key == key
    ensures r == Returned(true) <==> Get(data, key) == Some(1)
  {
    match Get(data, key)
    case None => KeyError(key)
    case Some(v) => Returned(v == 1)
  }

  /** After the snapshot's value under a key is set to 1 the switch reads
      on, and after it is set to 0 it reads off. */
  lemma WrittenStateReads(data: Snapshot, key: string)
    ensures IsOn(Put(data, key, 1), key) == Returned(true)
    ensures IsOn(Put(data, key, 0), key) == Returned(false)
  {
    PutThenGet(data, key, 1, key);
    PutThenGet(data, key, 0, key);
  }

  /** Setting the output's value leaves every other key's value as it was. */
  lemma WriteChangesOnlyItsKey(data: Snapshot, key: string, v: int, other: string)
    requires other != key
    ensures Get(Put(data, key, v), other) == Get(data, other)
    ensures IsOn(Put(data, key, v), other) == IsOn(data, other)
  {
    PutThenGet(data, key, v, other);
  }

  /** A switch written is in the snapshot afterwards, even when the snapshot
      had been cleared, so `is_on` no longer raises. */
  lemma WrittenKeyPresent(data: Snapshot, key: string, v: int)
    ensures key in Keys(Put(data, key, v))
    ensures !IsOn(Put(data, key, v), key).KeyError?
  {
    PutThenGet(data, key, v, key);
  }

  /** A `SmartMaicSwitch`: the coordinator it reads and writes through, and
      its description. */
  class SmartMaicSwitch {
    const coordinator: Coordinator.SmartMaicCoordinator
    const description: SwitchDescription
    const uniqueId: string

    constructor (coordinator: Coordinator.SmartMaicCoordinator, entry: ConfigEntry, description: SwitchDescription)
      ensures this.coordinator == coordinator && this.description == description
      ensures uniqueId == UniqueId(entry.devid, description.key)
    {
      this.coordinator := coordinator;
      this.description := description;
      uniqueId := UniqueId(entry.devid, description.key);
    }

    /** The state shown, read from the coordinator's current snapshot. */
    function State(): Raised<bool>
      reads coordinator
    {
      IsOn(coordinator.data, description.key)
    }

    /** `_set_dry_swtich`: forward the value to the device; once the device
        has accepted it, write it into a copy of the snapshot under the
        description key and publish that copy, stamped `nowMicros`. When
        the device is unreachable the error propagates before the snapshot
        is touched. */
    method SetDrySwitch(value: int, nowMicros: int) returns (r: Outcome<()>)
      modifies coordinator`data, coordinator`lastUpdateAt, coordinator.smartMaic`sent
      ensures coordinator.smartMaic.sent == old(coordinator.smartMaic.sent) + [Gateway.WriteDrySwitch(value)]
      ensures r.Ok? <==> coordinator.smartMaic.reachable
      ensures r.Ok? ==> coordinator.data == Put(old(coordinator.data), description.key, value)
      ensures r.Ok? ==> coordinator.lastUpdateAt == Some(Coordinator.TruncSec(nowMicros))
      ensures !r.Ok? ==> coordinator.data == old(coordinator.data) && coordinator.lastUpdateAt == old(coordinator.lastUpdateAt)
      ensures coordinator.updateInterval == old(coordinator.updateInterval)
    {
      r := coordinator.SetDrySwitch(value);
      if r.Ok? {
        var data := Put(coordinator.data, description.key, value);
        coordinator.AsyncSetUpdatedData(data, nowMicros);
      }
    }

    /** `async_turn_on`: send 1; once accepted, the switch reads on. */
    method TurnOn(nowMicros: int) returns (r: Outcome<()>)
      modifies coordinator`data, coordinator`lastUpdateAt, coordinator.smartMaic`sent
      ensures coordinator.smartMaic.sent == old(coordinator.smartMaic.sent) + [Gateway.WriteDrySwitch(1)]
      ensures r.Ok? <==> coordinator.smartMaic.reachable
      ensures r.Ok? ==> coordinator.data == Put(old(coordinator.data), description.key, 1) && State() == Returned(true)
      ensures r.Ok? ==> coordinator.lastUpdateAt == Some(Coordinator.TruncSec(nowMicros))
      ensures !r.Ok? ==> coordinator.data == old(coordinator.data) && State() == old(State())
      ensures !r.Ok? ==> coordinator.lastUpdateAt == old(coordinator.lastUpdateAt)
      ensures coordinator.updateInterval == old(coordinator.updateInterval)
    {
      r := SetDrySwitch(1, nowMicros);
      WrittenStateReads(old(coordinator.data), description.key);
    }

    /** `async_turn_off`: send 0; once accepted, the switch reads off. */
    method TurnOff(nowMicros: int) returns (r: Outcome<()>)
      modifies coordinator`data, coordinator`lastUpdateAt, coordinator.smartMaic`sent
      ensures coordinator.smartMaic.sent == old(coordinator.smartMaic.sent) + [Gateway.WriteDrySwitch(0)]
      ensures r.Ok? <==> coordinator.smartMaic.reachable
      ensures r.Ok? ==> coordinator.data == Put(old(coordinator.data), description.key, 0) && State() == Returned(false)
      ensures r.Ok? ==> coordinator.lastUpdateAt == Some(Coordinator.TruncSec(nowMicros))
      ensures !r.Ok? ==> coordinator.data == old(coordinator.data) && State() == old(State())
      ensures !r.Ok? ==> coordinator.lastUpdateAt == old(coordinator.lastUpdateAt)
      ensures coordinator.updateInterval == old(coordinator.updateInterval)
    {
      r := SetDrySwitch(0, nowMicros);
      WrittenStateReads(old(coordinator.data), description.key);
    }
  }
}
