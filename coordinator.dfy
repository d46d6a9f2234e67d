/** The state coordinator: owns the latest snapshot, the time of its last
    update (whole seconds) and the expiry interval; clears the snapshot when
    a poll finds it stale; forwards writes to the device client. The clock
    is injected: every operation that reads `utcnow()` takes the current
    time as a microsecond count. */
module Coordinator {
  import opened Values
  import opened Snapshot
  import Gateway

  const MICROS_PER_SECOND: int := 1_000_000

  /** `utcnow().replace(microsecond=0)`: a microsecond reading truncated to
      the whole second at or before it. */
  function TruncSec(micros: int): (r: int)
    ensures r * MICROS_PER_SECOND <= micros < (r + 1) * MICROS_PER_SECOND
  {
    micros / MICROS_PER_SECOND
  }

  /** `timedelta(seconds=options.get(key) or default)`: the configured
      expiry in seconds, falling back to the default when the option is
      missing or 0 (Python's `or` treats 0 as missing). */
  function IntervalSeconds(options: map<string, int>, key: string, default: int): (r: int)
    ensures key in options && options[key] != 0 ==> r == options[key]
    ensures key !in options || options[key] == 0 ==> r == default
  {
    if key in options && options[key] != 0 then options[key] else default
  }

  /** The coordinator's state as a value. */
  datatype State = State(data: Snapshot, lastUpdateAt: Option<int>, updateInterval: int)

  /** The guard of `_update_data`: there was an update, the data is not
      empty, and at least the interval has passed in whole seconds. */
  predicate Stale(s: State, nowMicros: int) {
    && s.lastUpdateAt.Some?
    && |s.data| > 0
    && TruncSec(nowMicros) - s.lastUpdateAt.value >= s.updateInterval
  }

  /** The state after a poll at `nowMicros`. */
  function Polled(s: State, nowMicros: int): (r: State)
    ensures r.lastUpdateAt == s.lastUpdateAt && r.updateInterval == s.updateInterval
    ensures r.data == s.data || r.data == []
    ensures r.data != s.data <==> Stale(s, nowMicros)
  {
    if Stale(s, nowMicros) then s.(data := []) else s
  }

  /** Before the first update, polling never clears the data. */
  lemma PollBeforeFirstUpdate(s: State, nowMicros: int)
    requires s.lastUpdateAt.None?
    ensures Polled(s, nowMicros) == s
  {
  }

  /** Expiry is idempotent: once a poll has cleared the data, later polls
      leave it empty; and polling twice on a clock that does not run
      backwards is the same as polling once at the later time. */
  lemma PollTwice(s: State, n1: int, n2: int)
    requires n1 <= n2
    ensures Polled(Polled(s, n1), n2) == Polled(s, n2)
  {
    assert TruncSec(n1) <= TruncSec(n2);
  }

  /** A snapshot pushed at `pushedMicros` survives a poll at `nowMicros`
      while fewer than `interval` whole seconds lie between the two, and is
      cleared by the first poll at which at least `interval` do (unless it
      is empty). */
  lemma PollAfterPush(snapshot: Snapshot, interval: int, pushedMicros: int, nowMicros: int)
    ensures var r := Polled(State(snapshot, Some(TruncSec(pushedMicros)), interval), nowMicros);
      r.data == if |snapshot| > 0 && TruncSec(nowMicros) - TruncSec(pushedMicros) >= interval then [] else snapshot
  {
  }

  /** Truncating both time stamps to seconds makes expiry happen up to one
      second early, never late: a poll at least `interval` seconds after
      the push always finds the data stale, and a stale verdict means more
      than `interval - 1` seconds have really passed. */
  lemma TruncationMargin(interval: int, pushedMicros: int, nowMicros: int)
    ensures nowMicros - pushedMicros >= interval * MICROS_PER_SECOND
      ==> TruncSec(nowMicros) - TruncSec(pushedMicros) >= interval
    ensures TruncSec(nowMicros) - TruncSec(pushedMicros) >= interval
      ==> nowMicros - pushedMicros > (interval - 1) * MICROS_PER_SECOND
  {
  }

  class SmartMaicCoordinator {
    /** The device client the coordinator forwards writes to. */
    const smartMaic: Gateway.SmartMaic
    /** The option key of the expiry interval and its default, in seconds. */
    const expirationKey: string
    const defaultExpiration: int

    /** The latest snapshot; `{}` before the first update and after expiry. */
    var data: Snapshot
    /** The time of the last update, in whole seconds, or `None` before it. */
    var lastUpdateAt: Option<int>
    /** The expiry interval, in seconds. */
    var updateInterval: int

    ghost function Abstract(): State
      reads this
    {
      State(data, lastUpdateAt, updateInterval)
    }

    /** `__init__`: store the client and set the interval from the options. */
    constructor (smartMaic: Gateway.SmartMaic, options: map<string, int>, expirationKey: string, defaultExpiration: int)
      ensures this.smartMaic == smartMaic
      ensures this.expirationKey == expirationKey && this.defaultExpiration == defaultExpiration
      ensures data == [] && lastUpdateAt.None?
      ensures updateInterval == IntervalSeconds(options, expirationKey, defaultExpiration)
    {
      this.smartMaic := smartMaic;
      this.expirationKey := expirationKey;
      this.defaultExpiration := defaultExpiration;
      data := [];
      lastUpdateAt := None;
      updateInterval := IntervalSeconds(options, expirationKey, defaultExpiration);
    }

    /** `set_update_interval`, also run when the options change. */
    method SetUpdateInterval(options: map<string, int>)
      modifies this`updateInterval
      ensures updateInterval == IntervalSeconds(options, expirationKey, defaultExpiration)
      ensures data == old(data) && lastUpdateAt == old(lastUpdateAt)
    {
      updateInterval := IntervalSeconds(options, expirationKey, defaultExpiration);
    }

    /** `async_set_updated_data`: replace the snapshot and stamp the time. */
    method AsyncSetUpdatedData(snapshot: Snapshot, nowMicros: int)
      modifies this`data, this`lastUpdateAt
      ensures data == snapshot
      ensures lastUpdateAt == Some(TruncSec(nowMicros))
      ensures updateInterval == old(updateInterval)
    {
      data := snapshot;
      lastUpdateAt := Some(TruncSec(nowMicros));
    }

    /** `_update_data`: clear stale data, then return the data. */
    method UpdateData(nowMicros: int) returns (r: Snapshot)
      modifies this`data
      ensures Abstract() == Polled(old(Abstract()), nowMicros)
      ensures r == data
    {
      if lastUpdateAt.Some? && |data| > 0 && TruncSec(nowMicros) - lastUpdateAt.value >= updateInterval {
        data := [];
      }
      r := data;
    }

    /** `_get_config`: as written it calls the client's `set_mqtt_config`,
        exactly as `_set_mqtt_config` does. */
    method GetConfig() returns (r: Outcome<Gateway.DeviceConfig>)
      modifies smartMaic`sent
      ensures smartMaic.sent == old(smartMaic.sent) + [Gateway.WriteMqttConfig]
      ensures r == if smartMaic.reachable then Ok(smartMaic.config) else ConnectionError
      ensures unchanged(this)
    {
      r := smartMaic.SetMqttConfig();
    }

    /** `_get_config` as its name and doc string intend: a read of the
        configuration that writes nothing to the device. */
    method ReadConfig() returns (r: Outcome<Gateway.DeviceConfig>)
      modifies smartMaic`sent
      ensures smartMaic.sent == old(smartMaic.sent) + [Gateway.ReadConfig]
      ensures r == if smartMaic.reachable then Ok(smartMaic.config) else ConnectionError
      ensures unchanged(this)
    {
      r := smartMaic.GetConfig();
    }

    /** `_set_mqtt_config`. */
    method SetMqttConfig() returns (r: Outcome<Gateway.DeviceConfig>)
      modifies smartMaic`sent
      ensures smartMaic.sent == old(smartMaic.sent) + [Gateway.WriteMqttConfig]
      ensures r == if smartMaic.reachable then Ok(smartMaic.config) else ConnectionError
      ensures unchanged(this)
    {
      r := smartMaic.SetMqttConfig();
    }

    /** `_set_consumption`: key and value reach the client unchanged. */
    method SetConsumption(key: string, value: int) returns (r: Outcome<()>)
      modifies smartMaic`sent
      ensures smartMaic.sent == old(smartMaic.sent) + [Gateway.WriteConsumption(key, value)]
      ensures r.Ok? <==> smartMaic.reachable
      ensures unchanged(this)
    {
      r := smartMaic.SetConsumption(key, value);
    }

    /** `_set_dry_switch`: the value reaches the client unchanged. */
    method SetDrySwitch(value: int) returns (r: Outcome<()>)
      modifies smartMaic`sent
      ensures smartMaic.sent == old(smartMaic.sent) + [Gateway.WriteDrySwitch(value)]
      ensures r.Ok? <==> smartMaic.reachable
      ensures unchanged(this)
    {
      r := smartMaic.SetDrySwitch(value);
    }
  }

  /** What a fresh coordinator sends to the device when asked for its
      configuration: as written, an MQTT configuration write. */
  method GetConfigSends(config: Gateway.DeviceConfig) returns (sent: seq<Gateway.Request>)
    ensures sent == [Gateway.WriteMqttConfig]
  {
    var client := new Gateway.SmartMaic(true, config);
    var c := new SmartMaicCoordinator(client, map[], "expiration", 60);
    var r := c.GetConfig();
    assert r == Ok(config);
    sent := client.sent;
  }

  /** The same with the corrected read: a configuration read only. */
  method ReadConfigSends(config: Gateway.DeviceConfig) returns (sent: seq<Gateway.Request>)
    ensures sent == [Gateway.ReadConfig]
  {
    var client := new Gateway.SmartMaic(true, config);
    var c := new SmartMaicCoordinator(client, map[], "expiration", 60);
    var r := c.ReadConfig();
    assert r == Ok(config);
    sent := client.sent;
  }
}
