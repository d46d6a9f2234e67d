/** The device's HTTP client (`SmartMaic`), seen from the coordinator: the
    requests handed to it, in order, and whether the device answers. How a
    request is encoded as GET parameters, the login-by-PIN that precedes it
    and the mapping of HTTP errors are not part of this model. */
module Gateway {
  import opened Values

  /** The device configuration its `webinit` page reports (left abstract). */
  type DeviceConfig = map<string, string>

  /** A request at the level of the client's public methods. */
  datatype Request =
    | ReadConfig                                // get_config
    | WriteMqttConfig                           // set_mqtt_config
    | WriteConsumption(key: string, value: int) // set_consumption
    | WriteDrySwitch(value: int)                // set_dry_switch

  class SmartMaic {
    /** Every request handed to the device so far, oldest first. */
    var sent: seq<Request>
    /** Whether the device answers; when it does not, the client raises ConnectionError. */
    var reachable: bool
    /** What the device reports as its configuration. */
    var config: DeviceConfig

    constructor (reachable: bool, config: DeviceConfig)
      ensures sent == [] && this.reachable == reachable && this.config == config
    {
      sent := [];
      this.reachable := reachable;
      this.config := config;
    }

    method GetConfig() returns (r: Outcome<DeviceConfig>)
      modifies this`sent
      ensures sent == old(sent) + [ReadConfig]
      ensures r == if reachable then Ok(config) else ConnectionError
    {
      sent := sent + [ReadConfig];
      r := if reachable then Ok(config) else ConnectionError;
    }

    method SetMqttConfig() returns (r: Outcome<DeviceConfig>)
      modifies this`sent
      ensures sent == old(sent) + [WriteMqttConfig]
      ensures r == if reachable then Ok(config) else ConnectionError
    {
      sent := sent + [WriteMqttConfig];
      r := if reachable then Ok(config) else ConnectionError;
    }

    method SetConsumption(key: string, value: int) returns (r: Outcome<()>)
      modifies this`sent
      ensures sent == old(sent) + [WriteConsumption(key, value)]
      ensures r == if reachable then Ok(()) else ConnectionError
    {
      sent := sent + [WriteConsumption(key, value)];
      r := if reachable then Ok(()) else ConnectionError;
    }

    method SetDrySwitch(value: int) returns (r: Outcome<()>)
      modifies this`sent
      ensures sent == old(sent) + [WriteDrySwitch(value)]
      ensures r == if reachable then Ok(()) else ConnectionError
    {
      sent := sent + [WriteDrySwitch(value)];
      r := if reachable then Ok(()) else ConnectionError;
    }
  }
}
