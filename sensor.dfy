/** The sensor platform: the description tables, the choice of sensors a
    snapshot gives rise to, and the two kinds of sensor value. */
module Sensor {
  import opened Values
  import opened Snapshot
  import opened Entity

  datatype DeviceClass = Voltage | Current | Power | Energy | PowerFactor | Temperature
  datatype StateClass = Measurement | Total | TotalIncreasing

  /** A `SensorEntityDescription`, with the fields the tables set. */
  datatype SensorDescription = SensorDescription(
    key: string,
    translationKey: string,
    deviceClass: Option<DeviceClass>,
    stateClass: StateClass,
    unit: Option<Unit>,
    precision: Option<nat>,
    enabledByDefault: bool)

  /** The seven metrics of one phase, as `phase_descriptions` writes them. */
  function VoltageDescription(index: string): SensorDescription {
    SensorDescription("V" + index, "voltage", Some(Voltage), Measurement, Some(Volt), Some(2), true)
  }
  function CurrentDescription(index: string): SensorDescription {
    SensorDescription("A" + index, "current", Some(Current), Measurement, Some(Ampere), Some(2), true)
  }
  function PowerDescription(index: string): SensorDescription {
    SensorDescription("W" + index, "power", Some(Power), Measurement, Some(Watt), Some(0), true)
  }
  function ReturnPowerDescription(index: string): SensorDescription {
    SensorDescription("rW" + index, "return_power", Some(Power), Measurement, Some(Watt), Some(0), false)
  }
  function ConsumptionDescription(index: string): SensorDescription {
    SensorDescription("Wh" + index, "consumption", Some(Energy), TotalIncreasing, Some(WattHour), Some(0), true)
  }
  function ReturnDescription(index: string): SensorDescription {
    SensorDescription("rWh" + index, "return", Some(Energy), Total, Some(WattHour), Some(0), false)
  }
  function PowerFactorDescription(index: string): SensorDescription {
    SensorDescription("PF" + index, "power_factor", Some(PowerFactor), Measurement, None, Some(2), true)
  }

  /** `phase_descriptions(index)`: the seven metrics of one phase, each
      under its own key. */
  function PhaseDescriptions(index: string): (r: map<string, SensorDescription>)
    ensures r.Keys == {"V" + index, "A" + index, "W" + index, "rW" + index,
                       "Wh" + index, "rWh" + index, "PF" + index}
    ensures |r| == 7
  {
    var r := map[
      "V" + index := VoltageDescription(index),
      "A" + index := CurrentDescription(index),
      "W" + index := PowerDescription(index),
      "rW" + index := ReturnPowerDescription(index),
      "Wh" + index := ConsumptionDescription(index),
      "rWh" + index := ReturnDescription(index),
      "PF" + index := PowerFactorDescription(index)
    ];
    PhaseKeysDistinct(index);
    r
  }

  /** The entries of a phase table that the totals mirror. */
  lemma PhaseEntries(index: string)
    ensures "A" + index in PhaseDescriptions(index) && "W" + index in PhaseDescriptions(index)
    ensures "rW" + index in PhaseDescriptions(index) && "Wh" + index in PhaseDescriptions(index)
    ensures "rWh" + index in PhaseDescriptions(index)
    ensures PhaseDescriptions(index)["A" + index] == CurrentDescription(index)
    ensures PhaseDescriptions(index)["W" + index] == PowerDescription(index)
    ensures PhaseDescriptions(index)["rW" + index] == ReturnPowerDescription(index)
    ensures PhaseDescriptions(index)["Wh" + index] == ConsumptionDescription(index)
    ensures PhaseDescriptions(index)["rWh" + index] == ReturnDescription(index)
  {
    PhaseKeysDistinct(index);
  }

  /** Each phase description sits under its own key. */
  lemma PhaseKeyed(index: string)
    ensures Keyed(PhaseDescriptions(index))
  {
  }

  /** The seven phase keys differ for every index: same-length keys differ
      in their first character. */
  lemma PhaseKeysDistinct(index: string)
    ensures |{"V" + index, "A" + index, "W" + index, "rW" + index,
              "Wh" + index, "rWh" + index, "PF" + index}| == 7
  {
    var v, a, w, rw, wh, rwh, pf := "V" + index, "A" + index, "W" + index, "rW" + index,
                                    "Wh" + index, "rWh" + index, "PF" + index;
    assert v[0] == 'V' && a[0] == 'A' && w[0] == 'W' && rw[0] == 'r' && wh[0] == 'W' && rwh[0] == 'r' && pf[0] == 'P';
    assert |v| == |a| == |w| == |index| + 1;
    assert |rw| == |wh| == |pf| == |index| + 2 && |rwh| == |index| + 3;
    assert {v, a, w, rw, wh, rwh, pf} == {v, a, w} + {rw, wh, pf} + {rwh};
  }

  /** `point_description(index)`: the temperature point `T<index>`. */
  function PointDescription(index: string): (r: map<string, SensorDescription>)
    ensures r.Keys == {"T" + index}
    ensures Keyed(r)
  {
    map["T" + index := SensorDescription("T" + index, "point", None, Measurement, None, None, true)]
  }

  /** `channel_description(index)`: the channel `Ch<index>` and its total `TCh<index>`. */
  function ChannelDescription(index: string): (r: map<string, SensorDescription>)
    ensures r.Keys == {"Ch" + index, "TCh" + index}
    ensures |r| == 2
    ensures Keyed(r)
  {
    var r := map[
      "Ch" + index := SensorDescription("Ch" + index, "channel", None, Measurement, None, None, true),
      "TCh" + index := SensorDescription("TCh" + index, "total_channel", None, Measurement, None, None, true)
    ];
    assert ("Ch" + index)[0] != ("TCh" + index)[0];
    r
  }

  const ADC_DESCRIPTION := SensorDescription("ADC", "adc", None, Measurement, None, None, true)
  const TEMP_DESCRIPTION := SensorDescription("Temp", "device_temperature", Some(Temperature), Measurement, Some(Celsius), Some(0), true)

  /** The ADC input and the device temperature, each under its own key. */
  function OtherDescriptions(): (r: map<string, SensorDescription>)
    ensures r.Keys == {"ADC", "Temp"}
    ensures Keyed(r)
  {
    map["ADC" := ADC_DESCRIPTION, "Temp" := TEMP_DESCRIPTION]
  }

  /** The keys of the pieces `ENTITY_DESCRIPTIONS` is merged from. */
  lemma PieceKeys()
    ensures PhaseDescriptions("").Keys == {"V", "A", "W", "rW", "Wh", "rWh", "PF"}
    ensures PhaseDescriptions("1").Keys == {"V1", "A1", "W1", "rW1", "Wh1", "rWh1", "PF1"}
    ensures PhaseDescriptions("2").Keys == {"V2", "A2", "W2", "rW2", "Wh2", "rWh2", "PF2"}
    ensures PhaseDescriptions("3").Keys == {"V3", "A3", "W3", "rW3", "Wh3", "rWh3", "PF3"}
    ensures PointDescription("1").Keys == {"T1"} && PointDescription("2").Keys == {"T2"}
    ensures PointDescription("3").Keys == {"T3"} && PointDescription("4").Keys == {"T4"}
    ensures PointDescription("5").Keys == {"T5"}
    ensures ChannelDescription("1").Keys == {"Ch1", "TCh1"} && ChannelDescription("2").Keys == {"Ch2", "TCh2"}
  {
    UnindexedPhaseKeys();
    PhaseOneKeys();
    PhaseTwoKeys();
    PhaseThreeKeys();
    PointAndChannelKeys();
  }

  // The four lemmas below differ only in the literal index. Each turns the
  // ensures of `PhaseDescriptions` into literal keys; a single lemma over the
  // index character would leave `"V" + [c] == "V1"` to every caller, and
  // equalities of concatenated string literals are what the solver finds
  // expensive here, so each instance is discharged on its own.
  lemma PhaseOneKeys()
    ensures PhaseDescriptions("1").Keys == {"V1", "A1", "W1", "rW1", "Wh1", "rWh1", "PF1"}
  {
    assert "V" + "1" == "V1" && "A" + "1" == "A1" && "W" + "1" == "W1" && "rW" + "1" == "rW1" && "Wh" + "1" == "Wh1" && "rWh" + "1" == "rWh1" && "PF" + "1" == "PF1";
  }

  lemma PhaseTwoKeys()
    ensures PhaseDescriptions("2").Keys == {"V2", "A2", "W2", "rW2", "Wh2", "rWh2", "PF2"}
  {
    assert "V" + "2" == "V2" && "A" + "2" == "A2" && "W" + "2" == "W2" && "rW" + "2" == "rW2" && "Wh" + "2" == "Wh2" && "rWh" + "2" == "rWh2" && "PF" + "2" == "PF2";
  }

  lemma PhaseThreeKeys()
    ensures PhaseDescriptions("3").Keys == {"V3", "A3", "W3", "rW3", "Wh3", "rWh3", "PF3"}
  {
    assert "V" + "3" == "V3" && "A" + "3" == "A3" && "W" + "3" == "W3" && "rW" + "3" == "rW3" && "Wh" + "3" == "Wh3" && "rWh" + "3" == "rWh3" && "PF" + "3" == "PF3";
  }

  lemma PointAndChannelKeys()
    ensures PointDescription("1").Keys == {"T1"} && PointDescription("2").Keys == {"T2"}
    ensures PointDescription("3").Keys == {"T3"} && PointDescription("4").Keys == {"T4"}
    ensures PointDescription("5").Keys == {"T5"}
    ensures ChannelDescription("1").Keys == {"Ch1", "TCh1"} && ChannelDescription("2").Keys == {"Ch2", "TCh2"}
  {
    assert "T" + "1" == "T1" && "T" + "2" == "T2" && "T" + "3" == "T3" && "T" + "4" == "T4" && "T" + "5" == "T5";
    assert "Ch" + "1" == "Ch1" && "TCh" + "1" == "TCh1" && "Ch" + "2" == "Ch2" && "TCh" + "2" == "TCh2";
  }

  lemma UnindexedPhaseKeys()
    ensures PhaseDescriptions("").Keys == {"V", "A", "W", "rW", "Wh", "rWh", "PF"}
  {
    assert "V" + "" == "V" && "A" + "" == "A" && "W" + "" == "W" && "rW" + "" == "rW" && "Wh" + "" == "Wh" && "rWh" + "" == "rWh" && "PF" + "" == "PF";
  }

  /** Every description sits under its own key. */
  predicate Keyed(m: map<string, SensorDescription>) {
    forall k :: k in m ==> m[k].key == k
  }

  /** Merging two tables whose descriptions sit under their own keys gives
      such a table again. */
  lemma MergeAllKeyed(p0: map<string, SensorDescription>, p1: map<string, SensorDescription>,
                      p2: map<string, SensorDescription>, p3: map<string, SensorDescription>,
                      t1: map<string, SensorDescription>, t2: map<string, SensorDescription>,
                      t3: map<string, SensorDescription>, t4: map<string, SensorDescription>,
                      t5: map<string, SensorDescription>, c1: map<string, SensorDescription>,
                      c2: map<string, SensorDescription>, other: map<string, SensorDescription>)
    requires Keyed(p0) && Keyed(p1) && Keyed(p2) && Keyed(p3)
    requires Keyed(t1) && Keyed(t2) && Keyed(t3) && Keyed(t4) && Keyed(t5)
    requires Keyed(c1) && Keyed(c2) && Keyed(other)
    ensures Keyed((p0 + p1 + p2 + p3) + (t1 + t2 + t3 + t4 + t5) + (c1 + c2) + other)
  {
  }

  /** `ENTITY_DESCRIPTIONS`: phases "", 1, 2 and 3 (single- and 3-phase
      meters), points 1 to 5, channels 1 and 2, the ADC input and the device
      temperature, merged in this order, each description under its own key. */
  function EntityDescriptions(): (r: map<string, SensorDescription>)
    ensures r.Keys == (PhaseDescriptions("").Keys + PhaseDescriptions("1").Keys
      + PhaseDescriptions("2").Keys + PhaseDescriptions("3").Keys)
      + (PointDescription("1").Keys + PointDescription("2").Keys + PointDescription("3").Keys
      + PointDescription("4").Keys + PointDescription("5").Keys)
      + (ChannelDescription("1").Keys + ChannelDescription("2").Keys) + {"ADC", "Temp"}
  {
    var p0, p1, p2, p3 := PhaseDescriptions(""), PhaseDescriptions("1"), PhaseDescriptions("2"), PhaseDescriptions("3");
    var t1, t2, t3, t4, t5 := PointDescription("1"), PointDescription("2"), PointDescription("3"),
                              PointDescription("4"), PointDescription("5");
    var c1, c2 := ChannelDescription("1"), ChannelDescription("2");
    var other := OtherDescriptions();
    (p0 + p1 + p2 + p3) + (t1 + t2 + t3 + t4 + t5) + (c1 + c2) + other
  }

  /** The sensor table has 39 entries: seven per phase, one per point,
      two per channel, and the ADC input and the device temperature. */
  lemma EntityDescriptionsCount()
    ensures |EntityDescriptions()| == 39
  {
    var p0, p1, p2, p3 := PhaseDescriptions("").Keys, PhaseDescriptions("1").Keys,
                          PhaseDescriptions("2").Keys, PhaseDescriptions("3").Keys;
    var t1, t2, t3, t4, t5 := PointDescription("1").Keys, PointDescription("2").Keys,
                              PointDescription("3").Keys, PointDescription("4").Keys,
                              PointDescription("5").Keys;
    var c1, c2 := ChannelDescription("1").Keys, ChannelDescription("2").Keys;
    IndexedGroup("1");
    IndexedGroup("2");
    PhaseAndPointGroup("3");
    PieceEndings("4");
    PieceEndings("5");
    UnindexedGroup();
    CountPieces(p0, p1, p2, p3, t1, t2, t3, t4, t5, c1, c2, {"ADC", "Temp"});
  }

  lemma CountPieces(p0: set<string>, p1: set<string>, p2: set<string>, p3: set<string>,
                    t1: set<string>, t2: set<string>, t3: set<string>, t4: set<string>, t5: set<string>,
                    c1: set<string>, c2: set<string>, other: set<string>)
    requires |p1 + t1 + c1| == 10 && AllEndIn(p1 + t1 + c1, '1')
    requires |p2 + t2 + c2| == 10 && AllEndIn(p2 + t2 + c2, '2')
    requires |p3 + t3| == 8 && AllEndIn(p3 + t3, '3')
    requires |t4| == 1 && AllEndIn(t4, '4') && |t5| == 1 && AllEndIn(t5, '5')
    requires |p0 + other| == 9 && NoneIndexed(p0 + other)
    ensures |(p0 + p1 + p2 + p3) + (t1 + t2 + t3 + t4 + t5) + (c1 + c2) + other| == 39
  {
    Regroup(p0, p1, p2, p3, t1, t2, t3, t4, t5, c1, c2, other);
    CountFromGroups(p1 + t1 + c1, p2 + t2 + c2, p3 + t3, t4, t5, p0 + other);
  }

  /** The merged keys, regrouped by the meter index they end in. */
  lemma Regroup(p0: set<string>, p1: set<string>, p2: set<string>, p3: set<string>,
                t1: set<string>, t2: set<string>, t3: set<string>, t4: set<string>, t5: set<string>,
                c1: set<string>, c2: set<string>, other: set<string>)
    ensures (p0 + p1 + p2 + p3) + (t1 + t2 + t3 + t4 + t5) + (c1 + c2) + other
         == (p1 + t1 + c1) + (p2 + t2 + c2) + (p3 + t3) + t4 + t5 + (p0 + other)
  {
  }

  /** `k` is not empty and its last character is `c`. */
  predicate EndsIn(k: string, c: char) {
    |k| > 0 && k[|k| - 1] == c
  }

  /** Every key of `keys` ends in `c`. */
  predicate AllEndIn(keys: set<string>, c: char) {
    forall k :: k in keys ==> EndsIn(k, c)
  }

  /** No key of `keys` ends in an index digit. */
  predicate NoneIndexed(keys: set<string>) {
    forall k :: k in keys ==> |k| > 0 && !IsIndexDigit(k[|k| - 1])
  }

  /** Every key of `keys` starts with V, A, W, r or P. */
  predicate PhaseShaped(keys: set<string>) {
    forall k :: k in keys ==> |k| > 0 && k[0] in "VAWrP"
  }

  lemma LastOfConcat(a: string, d: string)
    requires |d| == 1
    ensures EndsIn(a + d, d[0])
  {
  }

  lemma FirstOfConcat(a: string, d: string)
    requires |a| > 0
    ensures |a + d| > 0 && (a + d)[0] == a[0]
  {
  }

  /** Every key of a piece built for a one-character index ends in it. */
  lemma PieceEndings(d: string)
    requires |d| == 1
    ensures AllEndIn(PhaseDescriptions(d).Keys, d[0])
    ensures AllEndIn(PointDescription(d).Keys, d[0])
    ensures AllEndIn(ChannelDescription(d).Keys, d[0])
  {
    PhaseEndings(d);
    LastOfConcat("T", d);
    LastOfConcat("Ch", d);
    LastOfConcat("TCh", d);
  }

  lemma PhaseEndings(d: string)
    requires |d| == 1
    ensures AllEndIn(PhaseDescriptions(d).Keys, d[0])
  {
    LastOfConcat("V", d);
    LastOfConcat("A", d);
    LastOfConcat("W", d);
    LastOfConcat("rW", d);
    LastOfConcat("Wh", d);
    LastOfConcat("rWh", d);
    LastOfConcat("PF", d);
  }

  /** Phase keys start with one of V, A, W, r and P. */
  lemma PhaseFirstCharacters(d: string)
    ensures PhaseShaped(PhaseDescriptions(d).Keys)
  {
    FirstOfConcat("V", d);
    FirstOfConcat("A", d);
    FirstOfConcat("W", d);
    FirstOfConcat("rW", d);
    FirstOfConcat("Wh", d);
    FirstOfConcat("rWh", d);
    FirstOfConcat("PF", d);
  }

  lemma AllEndInUnion(a: set<string>, b: set<string>, c: char)
    requires AllEndIn(a, c) && AllEndIn(b, c)
    ensures AllEndIn(a + b, c)
  {
  }

  /** Phase, point and channel of one index: 7 + 1 + 2 distinct keys. */
  lemma IndexedGroup(d: string)
    requires |d| == 1
    ensures |PhaseDescriptions(d).Keys + PointDescription(d).Keys + ChannelDescription(d).Keys| == 10
    ensures AllEndIn(PhaseDescriptions(d).Keys + PointDescription(d).Keys + ChannelDescription(d).Keys, d[0])
  {
    PhaseAndPointGroup(d);
    var ch, tch, t := "Ch" + d, "TCh" + d, "T" + d;
    assert ch[0] == 'C' && tch[0] == 'T' && |tch| == 4 && |t| == 2 && t[0] == 'T';
    PhaseFirstCharacters(d);
    ApartByShape(PhaseDescriptions(d).Keys, t, ch, tch);
    DisjointCard(PhaseDescriptions(d).Keys + PointDescription(d).Keys, ChannelDescription(d).Keys);
    PieceEndings(d);
    AllEndInUnion(PhaseDescriptions(d).Keys + PointDescription(d).Keys, ChannelDescription(d).Keys, d[0]);
  }

  /** Keys starting with V, A, W, r or P, and a two-character key starting
      with T, are apart from a key starting with C and a four-character
      key starting with T. */
  lemma ApartByShape(p: set<string>, t: string, ch: string, tch: string)
    requires PhaseShaped(p)
    requires |t| == 2 && t[0] == 'T' && |ch| > 0 && ch[0] == 'C' && |tch| == 4 && tch[0] == 'T'
    ensures p + {t} !! {ch, tch}
  {
  }

  /** A key starting with T is not phase-shaped. */
  lemma PointApart(p: set<string>, t: string)
    requires PhaseShaped(p)
    requires |t| > 0 && t[0] == 'T'
    ensures p !! {t}
  {
  }

  /** Phase and point of one index: 7 + 1 distinct keys. */
  lemma PhaseAndPointGroup(d: string)
    requires |d| == 1
    ensures |PhaseDescriptions(d).Keys + PointDescription(d).Keys| == 8
    ensures AllEndIn(PhaseDescriptions(d).Keys + PointDescription(d).Keys, d[0])
  {
    var t := "T" + d;
    assert t[0] == 'T';
    PhaseFirstCharacters(d);
    PointApart(PhaseDescriptions(d).Keys, t);
    DisjointCard(PhaseDescriptions(d).Keys, {t});
    PieceEndings(d);
    AllEndInUnion(PhaseDescriptions(d).Keys, PointDescription(d).Keys, d[0]);
  }

  /** The phase without index, the ADC input and the device temperature:
      7 + 2 distinct keys, none ending in an index digit. */
  lemma UnindexedGroup()
    ensures |PhaseDescriptions("").Keys + {"ADC", "Temp"}| == 9
    ensures NoneIndexed(PhaseDescriptions("").Keys + {"ADC", "Temp"})
  {
    UnindexedPhaseKeys();
    UnindexedSetGroup(PhaseDescriptions("").Keys);
  }

  lemma UnindexedSetGroup(p: set<string>)
    requires p == {"V", "A", "W", "rW", "Wh", "rWh", "PF"}
    ensures |p + {"ADC", "Temp"}| == 9
    ensures NoneIndexed(p + {"ADC", "Temp"})
  {
    DisjointCard(p, {"ADC", "Temp"});
  }

  /** Every description of the sensor table sits under its own key. */
  lemma EntityDescriptionsKeyed()
    ensures Keyed(EntityDescriptions())
  {
    PhaseKeyed("");
    PhaseKeyed("1");
    PhaseKeyed("2");
    PhaseKeyed("3");
    MergeAllKeyed(PhaseDescriptions(""), PhaseDescriptions("1"), PhaseDescriptions("2"), PhaseDescriptions("3"),
                  PointDescription("1"), PointDescription("2"), PointDescription("3"),
                  PointDescription("4"), PointDescription("5"),
                  ChannelDescription("1"), ChannelDescription("2"),
                  OtherDescriptions());
  }

  /** Groups of keys that end in different characters are disjoint; their
      sizes add up. */
  lemma CountFromGroups(g1: set<string>, g2: set<string>, g3: set<string>,
                        g4: set<string>, g5: set<string>, gu: set<string>)
    requires |g1| == 10 && |g2| == 10 && |g3| == 8 && |g4| == 1 && |g5| == 1 && |gu| == 9
    requires AllEndIn(g1, '1') && AllEndIn(g2, '2') && AllEndIn(g3, '3')
    requires AllEndIn(g4, '4') && AllEndIn(g5, '5') && NoneIndexed(gu)
    ensures |g1 + g2 + g3 + g4 + g5 + gu| == 39
  {
    DisjointCard(g1, g2);
    DisjointCard(g1 + g2, g3);
    DisjointCard(g1 + g2 + g3, g4);
    DisjointCard(g1 + g2 + g3 + g4, g5);
    DisjointCard(g1 + g2 + g3 + g4 + g5, gu);
  }

  lemma DisjointCard(a: set<string>, b: set<string>)
    requires a !! b
    ensures |a + b| == |a| + |b|
  {
  }

  /** `PHASE_TOTAL_DESCRIPTIONS`, as its items in table order: the
      three-phase totals. The first components are device keys; the
      description keys follow the single-phase table, so `TWh` carries `Wh`
      and `rTWh` carries `rWh`. */
  const PHASE_TOTAL_DESCRIPTIONS: seq<(string, SensorDescription)> := [
    ("A", SensorDescription("A", "total_current", Some(Current), Measurement, Some(Ampere), Some(2), true)),
    ("W", SensorDescription("W", "total_power", Some(Power), Measurement, Some(Watt), Some(0), true)),
    ("rW", SensorDescription("rW", "total_return_power", Some(Power), Measurement, Some(Watt), Some(0), false)),
    ("TWh", SensorDescription("Wh", "total_consumption", Some(Energy), TotalIncreasing, Some(WattHour), Some(0), true)),
    ("rTWh", SensorDescription("rWh", "total_return", Some(Energy), Total, Some(WattHour), Some(0), false))
  ]

  /** The description keys of the totals, in table order. */
  const TOTAL_BASE_KEYS: seq<string> := ["A", "W", "rW", "Wh", "rWh"]

  /** The totals table has the five device keys `A`, `W`, `rW`, `TWh` and
      `rTWh`; a total's description key equals its device key except for
      the two energies, and the description keys differ. */
  lemma PhaseTotalKeys()
    ensures |PHASE_TOTAL_DESCRIPTIONS| == 5
    ensures PHASE_TOTAL_DESCRIPTIONS[0].0 == "A" && PHASE_TOTAL_DESCRIPTIONS[1].0 == "W"
    ensures PHASE_TOTAL_DESCRIPTIONS[2].0 == "rW" && PHASE_TOTAL_DESCRIPTIONS[3].0 == "TWh"
    ensures PHASE_TOTAL_DESCRIPTIONS[4].0 == "rTWh"
    ensures forall i :: 0 <= i < 5 ==> PHASE_TOTAL_DESCRIPTIONS[i].1.key == TOTAL_BASE_KEYS[i]
    ensures forall i :: 0 <= i < 5 ==>
      var k := PHASE_TOTAL_DESCRIPTIONS[i].0;
      TOTAL_BASE_KEYS[i] == if k == "TWh" then "Wh" else if k == "rTWh" then "rWh" else k
    ensures Distinct(TOTAL_BASE_KEYS)
  {
  }

  /** `total` describes the same quantity as `single`: the two differ at
      most in their translation key. */
  predicate SameQuantity(total: SensorDescription, single: SensorDescription) {
    total == single.(translationKey := total.translationKey)
  }

  /** Each total describes the same quantity as the single-phase
      description of its description key: same key, device class, state
      class, unit, precision and default enablement. */
  lemma PhaseTotalsMirrorSinglePhase()
    ensures forall i :: 0 <= i < 5 ==>
      TOTAL_BASE_KEYS[i] in PhaseDescriptions("") &&
      SameQuantity(PHASE_TOTAL_DESCRIPTIONS[i].1, PhaseDescriptions("")[TOTAL_BASE_KEYS[i]])
  {
    UnindexedEntries();
    TotalEntries();
  }

  lemma UnindexedEntries()
    ensures "A" in PhaseDescriptions("") && PhaseDescriptions("")["A"] == CurrentDescription("")
    ensures "W" in PhaseDescriptions("") && PhaseDescriptions("")["W"] == PowerDescription("")
    ensures "rW" in PhaseDescriptions("") && PhaseDescriptions("")["rW"] == ReturnPowerDescription("")
    ensures "Wh" in PhaseDescriptions("") && PhaseDescriptions("")["Wh"] == ConsumptionDescription("")
    ensures "rWh" in PhaseDescriptions("") && PhaseDescriptions("")["rWh"] == ReturnDescription("")
  {
    PhaseEntries("");
    var p := PhaseDescriptions("");
    SameKeyLookup(p, "A" + "", "A");
    SameKeyLookup(p, "W" + "", "W");
    SameKeyLookup(p, "rW" + "", "rW");
    SameKeyLookup(p, "Wh" + "", "Wh");
    SameKeyLookup(p, "rWh" + "", "rWh");
  }

  lemma SameKeyLookup(m: map<string, SensorDescription>, k: string, k': string)
    requires k in m && k == k'
    ensures k' in m && m[k'] == m[k]
  {
  }

  lemma TotalEntries()
    ensures SameQuantity(PHASE_TOTAL_DESCRIPTIONS[0].1, CurrentDescription(""))
    ensures SameQuantity(PHASE_TOTAL_DESCRIPTIONS[1].1, PowerDescription(""))
    ensures SameQuantity(PHASE_TOTAL_DESCRIPTIONS[2].1, ReturnPowerDescription(""))
    ensures SameQuantity(PHASE_TOTAL_DESCRIPTIONS[3].1, ConsumptionDescription(""))
    ensures SameQuantity(PHASE_TOTAL_DESCRIPTIONS[4].1, ReturnDescription(""))
  {
    assert "A" + "" == "A" && "W" + "" == "W" && "rW" + "" == "rW" && "Wh" + "" == "Wh" && "rWh" + "" == "rWh";
  }

  /** The two sensor classes: `SmartMaicSensor` reads one key,
      `SmartMaicPhaseTotalSensor` sums a key over the three phases. */
  datatype SensorKind = PerKey | PhaseTotal

  /** A sensor entity: its class, its unique id and its description. */
  datatype SensorEntity = SensorEntity(kind: SensorKind, uniqueId: string, description: SensorDescription)

  function MakeSensor(entry: ConfigEntry, kind: SensorKind, d: SensorDescription): SensorEntity {
    SensorEntity(kind, UniqueId(entry.devid, d.key), d)
  }

  /** The sensors' keys occur in the snapshot in the sensors' order. */
  predicate InSnapshotOrder(data: Snapshot, es: seq<SensorEntity>) {
    forall i, j :: 0 <= i < j < |es| ==> Before(data, es[i].description.key, es[j].description.key)
  }

  /** `[Sensor(d) for ent in data if (d := table.get(ent))]` for a table
      whose descriptions sit under their own keys: one sensor per snapshot
      key the table describes, in snapshot order, each with the table's
      description of that key and the unique id `devid-key`. */
  function SelectSensors(entry: ConfigEntry, data: Snapshot, table: map<string, SensorDescription>): (r: seq<SensorEntity>)
    requires Keyed(table)
    ensures |r| == |Keys(data) * table.Keys|
    ensures forall i :: 0 <= i < |r| ==>
      && r[i].kind == PerKey
      && r[i].description.key in Keys(data)
      && r[i].description.key in table
      && r[i].description == table[r[i].description.key]
      && r[i].uniqueId == UniqueId(entry.devid, r[i].description.key)
    ensures forall k :: k in Keys(data) && k in table ==>
      exists i :: 0 <= i < |r| && r[i].description.key == k
    ensures forall i, j :: 0 <= i < j < |r| ==> r[i].description.key != r[j].description.key
  {
    var ks := SelectKeys(data, table);
    SelectKeysCount(data, table);
    var r := seq(|ks|, i requires 0 <= i < |ks| => MakeSensor(entry, PerKey, table[ks[i]]));
    assert forall i :: 0 <= i < |r| ==> r[i].description.key == ks[i];
    assert forall k :: k in Elems(ks) ==> exists i :: 0 <= i < |ks| && ks[i] == k;
    r
  }

  /** The sensors come in the order their keys have in the snapshot. */
  lemma SelectSensorsInOrder(entry: ConfigEntry, data: Snapshot, table: map<string, SensorDescription>)
    requires Keyed(table)
    ensures InSnapshotOrder(data, SelectSensors(entry, data, table))
  {
    SelectKeysInOrder(data, table);
  }

  /** The first batch of `async_setup_entry`: the sensors the snapshot
      selects from the sensor table. */
  function KeySensors(entry: ConfigEntry, data: Snapshot): seq<SensorEntity> {
    EntityDescriptionsKeyed();
    SelectSensors(entry, data, EntityDescriptions())
  }

  /** The second batch: when the snapshot has `A1` (a three-phase meter),
      one total sensor per entry of the totals table, in table order;
      otherwise none. */
  function TotalSensors(entry: ConfigEntry, data: Snapshot): (r: seq<SensorEntity>)
    ensures |r| == if "A1" in Keys(data) then 5 else 0
    ensures forall i :: 0 <= i < |r| ==>
      && r[i].kind == PhaseTotal
      && r[i].description == PHASE_TOTAL_DESCRIPTIONS[i].1
      && r[i].uniqueId == UniqueId(entry.devid, TOTAL_BASE_KEYS[i])
  {
    PhaseTotalKeys();
    if "A1" in Keys(data) then
      seq(5, i requires 0 <= i < 5 => MakeSensor(entry, PhaseTotal, PHASE_TOTAL_DESCRIPTIONS[i].1))
    else
      []
  }

  /** `async_setup_entry`: both batches. */
  function SetupEntities(entry: ConfigEntry, data: Snapshot): seq<SensorEntity> {
    KeySensors(entry, data) + TotalSensors(entry, data)
  }

  /** A setup builds one sensor per snapshot key the sensor table has,
      plus the five totals when the snapshot has `A1`. */
  lemma SetupCount(entry: ConfigEntry, data: Snapshot)
    ensures |SetupEntities(entry, data)|
         == |Keys(data) * EntityDescriptions().Keys| + (if "A1" in Keys(data) then 5 else 0)
  {
    EntityDescriptionsKeyed();
  }

  /** No two entities share a unique id. */
  predicate IdsDistinct(es: seq<SensorEntity>) {
    forall i, j :: 0 <= i < j < |es| ==> es[i].uniqueId != es[j].uniqueId
  }

  /** The snapshot reports a three-phase total under one of the keys the
      totals use as description keys. */
  predicate ReportsTotalKey(data: Snapshot) {
    exists j :: 0 <= j < 5 && TOTAL_BASE_KEYS[j] in Keys(data)
  }

  /** The sensors set up for a snapshot have distinct unique ids exactly
      when it is not a three-phase snapshot that also reports one of `A`,
      `W`, `rW`, `Wh` or `rWh`: a total sensor takes its unique id from its
      description key, which is also the key of a single-phase sensor. */
  lemma SetupIdsDistinct(entry: ConfigEntry, data: Snapshot)
    ensures IdsDistinct(SetupEntities(entry, data)) <==> !("A1" in Keys(data) && ReportsTotalKey(data))
  {
    EntityDescriptionsKeyed();
    TotalKeysInTable();
    SelectionIdsDistinct(entry, data, EntityDescriptions());
  }

  /** The same for any table that has the totals' description keys. */
  lemma SelectionIdsDistinct(entry: ConfigEntry, data: Snapshot, table: map<string, SensorDescription>)
    requires Keyed(table)
    requires forall j :: 0 <= j < 5 ==> TOTAL_BASE_KEYS[j] in table
    ensures IdsDistinct(SelectSensors(entry, data, table) + TotalSensors(entry, data))
        <==> !("A1" in Keys(data) && ReportsTotalKey(data))
  {
    if "A1" in Keys(data) && ReportsTotalKey(data) {
      CollidingIds(entry, data, table);
    } else {
      DistinctIds(entry, data, table);
    }
  }

  lemma CollidingIds(entry: ConfigEntry, data: Snapshot, table: map<string, SensorDescription>)
    requires Keyed(table)
    requires forall j :: 0 <= j < 5 ==> TOTAL_BASE_KEYS[j] in table
    requires "A1" in Keys(data) && ReportsTotalKey(data)
    ensures !IdsDistinct(SelectSensors(entry, data, table) + TotalSensors(entry, data))
  {
    var ks, ts := SelectSensors(entry, data, table), TotalSensors(entry, data);
    var es := ks + ts;
    var j :| 0 <= j < 5 && TOTAL_BASE_KEYS[j] in Keys(data);
    var i :| 0 <= i < |ks| && ks[i].description.key == TOTAL_BASE_KEYS[j];
    SharedId(ks, ts, i, j);
  }

  lemma SharedId(ks: seq<SensorEntity>, ts: seq<SensorEntity>, i: nat, j: nat)
    requires i < |ks| && j < |ts| && ks[i].uniqueId == ts[j].uniqueId
    ensures !IdsDistinct(ks + ts)
  {
    assert (ks + ts)[i] == ks[i] && (ks + ts)[|ks| + j] == ts[j];
  }

  lemma DistinctIds(entry: ConfigEntry, data: Snapshot, table: map<string, SensorDescription>)
    requires Keyed(table)
    requires !("A1" in Keys(data) && ReportsTotalKey(data))
    ensures IdsDistinct(SelectSensors(entry, data, table) + TotalSensors(entry, data))
  {
    var ks, ts := SelectSensors(entry, data, table), TotalSensors(entry, data);
    forall i, j | 0 <= i < j < |ks| ensures ks[i].uniqueId != ks[j].uniqueId {
      UniqueIdInjective(entry.devid, ks[i].description.key, ks[j].description.key);
    }
    TotalIdsDistinct(entry, data);
    forall i, j | 0 <= i < |ks| && 0 <= j < |ts| ensures ks[i].uniqueId != ts[j].uniqueId {
      PhaseTotalKeys();
      assert TOTAL_BASE_KEYS[j] !in Keys(data);
      UniqueIdInjective(entry.devid, ks[i].description.key, TOTAL_BASE_KEYS[j]);
    }
    DistinctConcat(ks, ts);
  }

  /** The total sensors have distinct unique ids. */
  lemma TotalIdsDistinct(entry: ConfigEntry, data: Snapshot)
    ensures IdsDistinct(TotalSensors(entry, data))
  {
    var ts := TotalSensors(entry, data);
    PhaseTotalKeys();
    forall i, j | 0 <= i < j < |ts| ensures ts[i].uniqueId != ts[j].uniqueId {
      UniqueIdInjective(entry.devid, TOTAL_BASE_KEYS[i], TOTAL_BASE_KEYS[j]);
    }
  }

  lemma DistinctConcat(ks: seq<SensorEntity>, ts: seq<SensorEntity>)
    requires IdsDistinct(ks) && IdsDistinct(ts)
    requires forall i, j :: 0 <= i < |ks| && 0 <= j < |ts| ==> ks[i].uniqueId != ts[j].uniqueId
    ensures IdsDistinct(ks + ts)
  {
    var es := ks + ts;
    forall i, j | 0 <= i < j < |es| ensures es[i].uniqueId != es[j].uniqueId {
      if j < |ks| {
        assert es[i] == ks[i] && es[j] == ks[j];
      } else if i >= |ks| {
        assert es[i] == ts[i - |ks|] && es[j] == ts[j - |ks|];
      } else {
        assert es[i] == ks[i] && es[j] == ts[j - |ks|];
      }
    }
  }

  /** The totals' description keys are keys of the sensor table. */
  lemma TotalKeysInTable()
    ensures forall j :: 0 <= j < 5 ==> TOTAL_BASE_KEYS[j] in EntityDescriptions()
  {
    UnindexedEntries();
    UnindexedInTable();
    TotalKeysIn(PhaseDescriptions("").Keys, EntityDescriptions().Keys);
  }

  lemma UnindexedInTable()
    ensures PhaseDescriptions("").Keys <= EntityDescriptions().Keys
  {
  }

  lemma TotalKeysIn(p: set<string>, keys: set<string>)
    requires p <= keys
    requires "A" in p && "W" in p && "rW" in p && "Wh" in p && "rWh" in p
    ensures forall j :: 0 <= j < 5 ==> TOTAL_BASE_KEYS[j] in keys
  {
    var t := TOTAL_BASE_KEYS;
    assert t[0] == "A" && t[1] == "W" && t[2] == "rW" && t[3] == "Wh" && t[4] == "rWh";
  }

  /** `SmartMaicSensor.native_value`: the snapshot's value under the
      description key, or `None` when the key is absent. */
  function NativeValue(data: Snapshot, key: string): (r: Option<int>)
    ensures r.None? <==> key !in Keys(data)
    ensures forall i :: 0 <= i < |data| && data[i].0 == key ==> r == Some(data[i].1)
  {
    Get(data, key)
  }

  /** The snapshot has the key of `base` for each of the three phases. */
  predicate PhasesPresent(data: Snapshot, base: string) {
    base + "1" in Keys(data) && base + "2" in Keys(data) && base + "3" in Keys(data)
  }

  /** `SmartMaicPhaseTotalSensor.native_value`: `None` for an empty
      snapshot; otherwise the sum of the three phase values, where reading
      a missing phase key raises `KeyError` for the first one missing. */
  function TotalNativeValue(data: Snapshot, base: string): (r: Raised<Option<int>>)
    ensures |data| == 0 ==> r == Returned(None)
    ensures |data| > 0 && PhasesPresent(data, base) ==>
      r == Returned(Some(NativeValue(data, base + "1").value + NativeValue(data, base + "2").value
                         + NativeValue(data, base + "3").value))
    ensures r.KeyError? <==> |data| > 0 && !PhasesPresent(data, base)
    ensures r.KeyError? ==>
      && r.key !in Keys(data)
      && (r.key == base + "1" || (base + "1" in Keys(data) &&
          (r.key == base + "2" || (base + "2" in Keys(data) && r.key == base + "3"))))
  {
    if |data| == 0 then Returned(None)
    else
      var v1, v2, v3 := Get(data, base + "1"), Get(data, base + "2"), Get(data, base + "3");
      if v1.None? then KeyError(base + "1")
      else if v2.None? then KeyError(base + "2")
      else if v3.None? then KeyError(base + "3")
      else Returned(Some(v1.value + v2.value + v3.value))
  }

  /** The state of a sensor entity, by its class. */
  function SensorValue(data: Snapshot, e: SensorEntity): Raised<Option<int>> {
    match e.kind
    case PerKey => Returned(NativeValue(data, e.description.key))
    case PhaseTotal => TotalNativeValue(data, e.description.key)
  }

  /** On a snapshot that has all three phase keys of a total, the total
      sensor's value is the sum of the values the three per-key sensors of
      those keys read; the sensor table describes all three keys, so the
      setup creates those sensors. */
  lemma TotalSumsPhaseSensors(entry: ConfigEntry, data: Snapshot, j: nat)
    requires j < |TotalSensors(entry, data)|
    requires PhasesPresent(data, TOTAL_BASE_KEYS[j])
    ensures var b := TOTAL_BASE_KEYS[j];
      && b + "1" in EntityDescriptions() && b + "2" in EntityDescriptions() && b + "3" in EntityDescriptions()
      && SensorValue(data, TotalSensors(entry, data)[j])
         == Returned(Some(NativeValue(data, b + "1").value + NativeValue(data, b + "2").value
                          + NativeValue(data, b + "3").value))
  {
    PhaseKeysInTable(j);
    PhaseTotalKeys();
  }

  /** The three phase keys of every total are keys of the sensor table. */
  lemma PhaseKeysInTable(j: nat)
    requires j < 5
    ensures var b := TOTAL_BASE_KEYS[j];
      b + "1" in EntityDescriptions() && b + "2" in EntityDescriptions() && b + "3" in EntityDescriptions()
  {
    PhasesInTable();
    PhaseKeysOfTotal(j);
  }

  lemma PhasesInTable()
    ensures PhaseDescriptions("1").Keys <= EntityDescriptions().Keys
    ensures PhaseDescriptions("2").Keys <= EntityDescriptions().Keys
    ensures PhaseDescriptions("3").Keys <= EntityDescriptions().Keys
  {
  }

  lemma PhaseKeysOfTotal(j: nat)
    requires j < 5
    ensures var b := TOTAL_BASE_KEYS[j];
      b + "1" in PhaseDescriptions("1") && b + "2" in PhaseDescriptions("2") && b + "3" in PhaseDescriptions("3")
  {
    var t := TOTAL_BASE_KEYS;
    assert t[0] == "A" && t[1] == "W" && t[2] == "rW" && t[3] == "Wh" && t[4] == "rWh";
  }

  /** A sensor of a phase, point or channel with index 1 to 5 is named
      after its index: the translated name, a space and the index. */
  lemma IndexedNames(index: string, original: string)
    requires |index| == 1 && IsIndexDigit(index[0])
    ensures forall k ::
              k in PhaseDescriptions(index) || k in PointDescription(index) || k in ChannelDescription(index)
              ==> |k| > 0 && DisplayName(original, k) == original + " " + index
  {
    PieceEndings(index);
    forall k | k in PhaseDescriptions(index) || k in PointDescription(index) || k in ChannelDescription(index)
      ensures |k| > 0 && DisplayName(original, k) == original + " " + index
    {
      IndexedName(original, k, index);
    }
  }

  lemma IndexedName(original: string, k: string, index: string)
    requires |index| == 1 && IsIndexDigit(index[0]) && EndsIn(k, index[0])
    ensures DisplayName(original, k) == original + " " + index
  {
    var r := DisplayName(original, k);
    assert r == r[..|original|] + r[|original|..];
  }

  /** The single-phase sensors, the ADC input and the device temperature
      keep the translated name as it is. */
  lemma UnindexedNames(original: string)
    ensures forall k ::
              k in PhaseDescriptions("") || k == ADC_DESCRIPTION.key || k == TEMP_DESCRIPTION.key
              ==> |k| > 0 && DisplayName(original, k) == original
  {
    UnindexedGroup();
    assert forall k ::
             k in PhaseDescriptions("") || k == ADC_DESCRIPTION.key || k == TEMP_DESCRIPTION.key
             ==> k in PhaseDescriptions("").Keys + {"ADC", "Temp"};
  }

  /** So do the three-phase totals. */
  lemma TotalNames(original: string)
    ensures forall j :: 0 <= j < 5 ==>
              |PHASE_TOTAL_DESCRIPTIONS[j].1.key| > 0
              && DisplayName(original, PHASE_TOTAL_DESCRIPTIONS[j].1.key) == original
  {
  }
}
