/** What every Smart MAIC entity shares: its unique id, its display name
    and the device record it belongs to. */
module Entity {

  const DOMAIN: string := "smart_maic"
  const MANUFACTURER: string := "Smart MAIC"

  /** Units of measurement the descriptions use. */
  datatype Unit = Volt | Ampere | Watt | WattHour | Celsius

  /** The fields of a config entry's `data` the entities read. */
  datatype ConfigEntry = ConfigEntry(
    ipAddress: string,
    deviceName: string,
    devid: string,
    devtype: string)

  /** The device record an entity reports to the device registry. */
  datatype DeviceInfo = DeviceInfo(
    identifiers: set<(string, string)>,
    name: string,
    manufacturer: string,
    model: string,
    configurationUrl: string)

  /** `"-".join([devid, key])`: the device id, a dash, the description key. */
  function UniqueId(devid: string, key: string): (r: string)
    ensures |r| == |devid| + 1 + |key|
    ensures r[..|devid|] == devid && r[|devid|] == '-' && r[|devid| + 1..] == key
  {
    devid + "-" + key
  }

  /** Two entities of one device have the same unique id exactly when their
      description keys are equal. */
  lemma UniqueIdInjective(devid: string, k1: string, k2: string)
    ensures UniqueId(devid, k1) == UniqueId(devid, k2) <==> k1 == k2
  {
  }

  /** The characters whose presence at the end of a key names a phase or a point. */
  predicate IsIndexDigit(c: char) {
    c in {'1', '2', '3', '4', '5'}
  }

  /** The `name` property: the translated name `original`, followed by a
      space and the key's last character when that is a digit 1 to 5. */
  function DisplayName(original: string, key: string): (r: string)
    requires |key| > 0
    ensures original <= r
    ensures IsIndexDigit(key[|key| - 1]) ==> r[|original|..] == [' ', key[|key| - 1]]
    ensures !IsIndexDigit(key[|key| - 1]) ==> r == original
  {
    var suffix := if IsIndexDigit(key[|key| - 1]) then [' ', key[|key| - 1]] else "";
    original + suffix
  }

  /** The `device_info` property: one identifier `(DOMAIN, devid)`, and a
      configuration URL that is `http://` followed by the device address. */
  function DeviceInfoOf(entry: ConfigEntry): (r: DeviceInfo)
    ensures r.identifiers == {(DOMAIN, entry.devid)}
    ensures r.name == entry.deviceName && r.model == entry.devtype
    ensures r.manufacturer == MANUFACTURER
    ensures |r.configurationUrl| == 7 + |entry.ipAddress|
    ensures r.configurationUrl[..7] == "http://" && r.configurationUrl[7..] == entry.ipAddress
  {
    DeviceInfo(
      identifiers := {(DOMAIN, entry.devid)},
      name := entry.deviceName,
      manufacturer := MANUFACTURER,
      model := entry.devtype,
      configurationUrl := "http://" + entry.ipAddress)
  }
}
