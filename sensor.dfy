/**
 * The sensor platform: the entities created when an entry is set up (one
 * per scalar descriptor, four per disk listed under `"_disks"`), their
 * attributes, and the values they read from the coordinator's data.
 */
module Sensor {
  import opened Wrappers
  import opened Strings
  import opened Values
  import opened Snmp
  import opened Const
  import SnmpHelper

  datatype DeviceClass = Temperature
  datatype StateClass = Measurement | TotalIncreasing

  /** The attributes an entity's constructor fixes. */
  datatype Attributes = Attributes(
    uniqueId: string,
    name: string,
    unit: Option<string>,
    icon: Option<string>,
    deviceClass: Option<DeviceClass>,
    stateClass: Option<StateClass>)

  /** A scalar sensor reads its descriptor's key; a disk sensor reads one metric of one disk. */
  datatype Entity =
    | ScalarSensor(attrs: Attributes, key: string)
    | DiskSensor(attrs: Attributes, diskIndex: string, metric: string)

  /** The coordinator's data: `None` before the first poll, else the result dictionary. */
  type PollData = Option<map<string, Value>>

  /** The metrics of a disk, in the order their entities are created. */
  const DISK_METRICS := ["temperature", "capacity", "model", "vendor"]

  // ------------------------------------------------------------ attributes

  /** `unit or None`: the empty unit means none. */
  function UnitOf(unit: string): (r: Option<string>)
    ensures r.None? <==> unit == ""
    ensures r.Some? ==> r.value == unit
  {
    if unit == "" then None else Some(unit)
  }

  /** Only `"temperature"` names a device class; anything else means none. */
  function DeviceClassOf(name: Option<string>): (r: Option<DeviceClass>)
    ensures r == Some(Temperature) <==> name == Some("temperature")
    ensures r.None? <==> name != Some("temperature")
  {
    if name == Some("temperature") then Some(Temperature) else None
  }

  /** `"measurement"` and `"total_increasing"` name state classes; anything else means none. */
  function StateClassOf(name: Option<string>): (r: Option<StateClass>)
    ensures r == Some(Measurement) <==> name == Some("measurement")
    ensures r == Some(TotalIncreasing) <==> name == Some("total_increasing")
    ensures r.None? <==> name != Some("measurement") && name != Some("total_increasing")
  {
    if name == Some("measurement") then Some(Measurement)
    else if name == Some("total_increasing") then Some(TotalIncreasing)
    else None
  }

  /** The unique id of a scalar sensor: the entry id, `_`, the key. */
  function ScalarUniqueId(entryId: string, key: string): string {
    entryId + "_" + key
  }

  /** The unique id of a disk sensor: the entry id, `_disk_`, the disk index, `_`, the metric. */
  function DiskUniqueId(entryId: string, index: string, metric: string): string {
    entryId + "_disk_" + index + "_" + metric
  }

  /** Within one entry, distinct keys give distinct scalar ids. */
  lemma ScalarUniqueIdInjective(entryId: string, k1: string, k2: string)
    ensures ScalarUniqueId(entryId, k1) == ScalarUniqueId(entryId, k2) <==> k1 == k2
  {
    if ScalarUniqueId(entryId, k1) == ScalarUniqueId(entryId, k2) {
      assert ScalarUniqueId(entryId, k1)[|entryId| + 1..] == k1;
      assert ScalarUniqueId(entryId, k2)[|entryId| + 1..] == k2;
    }
  }

  /** Within one entry, two disk ids agree only for the same disk index and the same metric. */
  lemma DiskUniqueIdInjective(entryId: string, i1: string, m1: string, i2: string, m2: string)
    requires m1 in DISK_METRICS && m2 in DISK_METRICS
    ensures DiskUniqueId(entryId, i1, m1) == DiskUniqueId(entryId, i2, m2) <==> i1 == i2 && m1 == m2
  {
    var a, b := DiskUniqueId(entryId, i1, m1), DiskUniqueId(entryId, i2, m2);
    if a == b {
      assert a[|a| - 1] == m1[|m1| - 1];
      assert b[|b| - 1] == m2[|m2| - 1];
      assert m1 == m2;
      var n := |entryId| + 6;
      assert a[n..n + |i1|] == i1;
      assert b[n..n + |i2|] == i2;
    }
  }

  /** A scalar id is never a disk id when the key does not start with `d`. */
  lemma ScalarDiskIdsDiffer(entryId: string, key: string, index: string, metric: string)
    requires key == [] || key[0] != 'd'
    ensures ScalarUniqueId(entryId, key) != DiskUniqueId(entryId, index, metric)
  {
    var a, b := ScalarUniqueId(entryId, key), DiskUniqueId(entryId, index, metric);
    assert |key| == 0 ==> |a| < |b|;
    assert |key| > 0 ==> a[|entryId| + 1] == key[0] && b[|entryId| + 1] == 'd';
  }

  /** No key of the table starts with `d`. */
  lemma SensorKeysNotDisk()
    ensures forall i :: 0 <= i < |SENSORS| ==> SENSORS[i].key != [] && SENSORS[i].key[0] != 'd'
  {
    forall i | 0 <= i < |SENSORS|
      ensures SENSORS[i].key != [] && SENSORS[i].key[0] != 'd'
    {
      var k := SENSORS[i].key;
      assert k[0] in "crsfn";
    }
  }

  /** The disk label: `Disk <index>`, then ` (<model>)` when the stripped model is not empty. */
  function DiskLabel(index: string, model: string): (r: string)
    ensures |r| >= 5 + |index| && r[..5 + |index|] == "Disk " + index
    ensures model == "" <==> |r| == 5 + |index|
  {
    "Disk " + index + (if model != "" then " (" + model + ")" else "")
  }

  /** A non-empty model can be read back from the label. */
  lemma DiskLabelModel(index: string, model: string)
    requires model != ""
    ensures var r := DiskLabel(index, model); |r| == |index| + |model| + 8 && r[|index| + 7..|r| - 1] == model
  {
    var r := DiskLabel(index, model);
    assert r == "Disk " + index + " (" + model + ")";
  }

  // -------------------------------------------------------------- entities

  /** The entity `WDEx2UltraSensor.__init__` builds for a descriptor. */
  function ScalarEntity(entryId: string, d: SensorDef): Entity {
    ScalarSensor(
      Attributes(ScalarUniqueId(entryId, d.key), d.name, UnitOf(d.unit), Some(d.icon),
                 DeviceClassOf(d.deviceClass), StateClassOf(d.stateClass)),
      d.key)
  }

  /** The scalar entities, one per descriptor, in order. */
  function ScalarEntities(entryId: string, sensors: seq<SensorDef>): (r: seq<Entity>)
    ensures |r| == |sensors|
    ensures forall i :: 0 <= i < |sensors| ==> r[i] == ScalarEntity(entryId, sensors[i])
  {
    if sensors == [] then []
    else ScalarEntities(entryId, sensors[..|sensors| - 1]) + [ScalarEntity(entryId, sensors[|sensors| - 1])]
  }

  /** The four entities of one disk, for its index and its stripped model. */
  function DiskGroup(entryId: string, index: string, model: string): (r: seq<Entity>)
    ensures |r| == |DISK_METRICS|
    ensures forall k :: 0 <= k < |r| ==>
      r[k].DiskSensor? && r[k].diskIndex == index && r[k].metric == DISK_METRICS[k] &&
      r[k].attrs.uniqueId == DiskUniqueId(entryId, index, DISK_METRICS[k])
  {
    var caption := DiskLabel(index, model);
    [ DiskSensor(Attributes(DiskUniqueId(entryId, index, "temperature"), caption + " Temperature",
                            Some("\U{B0}C"), Some("mdi:thermometer"), Some(Temperature), Some(Measurement)),
                 index, "temperature"),
      DiskSensor(Attributes(DiskUniqueId(entryId, index, "capacity"), caption + " Capacity",
                            Some("GB"), Some("mdi:harddisk"), None, Some(Measurement)),
                 index, "capacity"),
      DiskSensor(Attributes(DiskUniqueId(entryId, index, "model"), "Disk " + index + " Model",
                            None, Some("mdi:harddisk"), None, None),
                 index, "model"),
      DiskSensor(Attributes(DiskUniqueId(entryId, index, "vendor"), "Disk " + index + " Vendor",
                            None, Some("mdi:information-outline"), None, None),
                 index, "vendor") ]
  }

  /** The model and vendor entities are named after the index alone, whatever the model. */
  lemma DiskGroupModelOnlyInLabels(entryId: string, index: string, m1: string, m2: string)
    ensures DiskGroup(entryId, index, m1)[2..] == DiskGroup(entryId, index, m2)[2..]
    ensures forall k :: 0 <= k < 4 ==>
      DiskGroup(entryId, index, m1)[k].attrs.uniqueId == DiskGroup(entryId, index, m2)[k].attrs.uniqueId
  {
  }

  /** `disk.get("model", "").strip()`: a missing model is empty; a model that is not a string cannot be stripped. */
  function ModelOf(disk: DiskRow): (r: Result<string, PyError>)
    ensures r.Err? <==> "model" in disk.fields && !disk.fields["model"].Text?
    ensures r.Err? ==> r.error == AttributeError
    ensures r.Ok? ==> r.value == [] || (!IsSpace(r.value[0]) && !IsSpace(r.value[|r.value| - 1]))
  {
    if "model" !in disk.fields then Ok("")
    else match disk.fields["model"]
      case Text(s) => Ok(Strip(s))
      case _ => Err(AttributeError)
  }

  /**
   * The disk list of a data dictionary, `data.get("_disks", [])`: a missing
   * entry is the empty list, an empty string iterates over nothing, and any
   * other value that is not a list fails once iterated or indexed.
   */
  function RowsOf(m: map<string, Value>): (r: Result<seq<DiskRow>, PyError>)
    ensures "_disks" !in m ==> r == Ok([])
    ensures "_disks" in m && m["_disks"].Disks? ==> r == Ok(m["_disks"].rows)
    ensures r.Err? ==> r.error == TypeError
  {
    if "_disks" !in m then Ok([])
    else match m["_disks"]
      case Disks(rows) => Ok(rows)
      case Text(s) => if s == "" then Ok([]) else Err(TypeError)
      case _ => Err(TypeError)
  }

  /** `(coordinator.data or {}).get("_disks", [])`. */
  function DisksOf(data: PollData): (r: Result<seq<DiskRow>, PyError>)
    ensures data.None? ==> r == Ok([])
  {
    RowsOf(if data.Some? then data.value else map[])
  }

  /** The group of entities of a disk for one entry, as a function of the index and the stripped model. */
  function Grouping(entryId: string): (string, string) -> seq<Entity> {
    (index: string, model: string) => DiskGroup(entryId, index, model)
  }

  /**
   * The disk entities for a disk list, `group(index, model)` disk by disk;
   * the first disk whose model fails stops the setup.
   */
  function DisksEntities(disks: seq<DiskRow>, group: (string, string) -> seq<Entity>): Result<seq<Entity>, PyError> {
    if disks == [] then Ok([])
    else match DisksEntities(disks[..|disks| - 1], group)
      case Err(e) => Err(e)
      case Ok(es) =>
        var last := disks[|disks| - 1];
        match ModelOf(last)
        case Err(e) => Err(e)
        case Ok(model) => Ok(es + group(last.index, model))
  }

  /**
   * The entities `async_setup_entry` hands to the platform for a descriptor
   * table (the platform's is `SENSORS`), or the exception it raises first.
   */
  function SetupResult(entryId: string, sensors: seq<SensorDef>, data: PollData): Result<seq<Entity>, PyError> {
    match DisksOf(data)
    case Err(e) => Err(e)
    case Ok(disks) =>
      match DisksEntities(disks, Grouping(entryId))
      case Err(e) => Err(e)
      case Ok(des) => Ok(ScalarEntities(entryId, sensors) + des)
  }

  /** The disk entities exist exactly when every model can be read. */
  lemma {:induction false} DisksEntitiesOk(disks: seq<DiskRow>, group: (string, string) -> seq<Entity>)
    ensures DisksEntities(disks, group).Ok? <==> forall i :: 0 <= i < |disks| ==> ModelOf(disks[i]).Ok?
  {
    if disks != [] {
      var init := disks[..|disks| - 1];
      DisksEntitiesOk(init, group);
      assert forall i :: 0 <= i < |init| ==> init[i] == disks[i];
    }
  }

  /** Then they are one group of four per disk, disk by disk. */
  lemma {:induction false} DisksEntitiesGroups(disks: seq<DiskRow>, group: (string, string) -> seq<Entity>)
    requires forall index, model :: |group(index, model)| == 4
    requires DisksEntities(disks, group).Ok?
    ensures var es := DisksEntities(disks, group).value;
      |es| == 4 * |disks| &&
      forall i :: 0 <= i < |disks| ==> ModelOf(disks[i]).Ok? && es[4 * i..4 * i + 4] == group(disks[i].index, ModelOf(disks[i]).value)
  {
    if disks != [] {
      var init, last := disks[..|disks| - 1], disks[|disks| - 1];
      DisksEntitiesGroups(init, group);
      var es := DisksEntities(init, group).value;
      var g := group(last.index, ModelOf(last).value);
      var r := DisksEntities(disks, group).value;
      assert r == es + g;
      forall i | 0 <= i < |disks|
        ensures ModelOf(disks[i]).Ok? && r[4 * i..4 * i + 4] == group(disks[i].index, ModelOf(disks[i]).value)
      {
        if i < |init| {
          assert disks[i] == init[i];
          assert r[4 * i..4 * i + 4] == es[4 * i..4 * i + 4];
        } else {
          assert r[4 * i..4 * i + 4] == g;
        }
      }
    }
  }

  /** Otherwise the error is that of the first disk whose model cannot be read. */
  lemma {:induction false} DisksEntitiesFirstError(disks: seq<DiskRow>, group: (string, string) -> seq<Entity>)
    requires DisksEntities(disks, group).Err?
    ensures exists i ::
      0 <= i < |disks| && ModelOf(disks[i]) == Err(DisksEntities(disks, group).error) && forall j :: 0 <= j < i ==> ModelOf(disks[j]).Ok?
  {
    var init, last := disks[..|disks| - 1], disks[|disks| - 1];
    var e := DisksEntities(disks, group).error;
    assert forall i :: 0 <= i < |init| ==> init[i] == disks[i];
    if DisksEntities(init, group).Ok? {
      DisksEntitiesOk(init, group);
      assert ModelOf(disks[|init|]) == Err(e);
    } else {
      DisksEntitiesFirstError(init, group);
      var i :| 0 <= i < |init| && ModelOf(init[i]) == Err(e) && forall j :: 0 <= j < i ==> ModelOf(init[j]).Ok?;
      assert ModelOf(disks[i]) == Err(e);
    }
  }

  /**
   * Setup creates the scalar entities in table order followed by the disk
   * entities: |sensors| + 4 * |disks| entities in all, four per disk as
   * `DisksEntitiesGroups` lays out.
   */
  lemma SetupShape(entryId: string, sensors: seq<SensorDef>, data: PollData)
    ensures SetupResult(entryId, sensors, data).Ok? <==>
      DisksOf(data).Ok? && forall i :: 0 <= i < |DisksOf(data).value| ==> ModelOf(DisksOf(data).value[i]).Ok?
    ensures SetupResult(entryId, sensors, data).Ok? ==>
      var es, disks := SetupResult(entryId, sensors, data).value, DisksOf(data).value;
      |es| == |sensors| + 4 * |disks| && es[..|sensors|] == ScalarEntities(entryId, sensors) &&
      es[|sensors|..] == DisksEntities(disks, Grouping(entryId)).value
  {
    if DisksOf(data).Ok? {
      var disks := DisksOf(data).value;
      DisksEntitiesOk(disks, Grouping(entryId));
      if SetupResult(entryId, sensors, data).Ok? {
        DisksEntitiesGroups(disks, Grouping(entryId));
      }
    }
  }

  /** Before the first poll, or when the data lists no disks, setup creates the scalar entities only. */
  lemma SetupWithoutDisks(entryId: string, sensors: seq<SensorDef>, data: PollData)
    requires data.None? || "_disks" !in data.value
    ensures SetupResult(entryId, sensors, data) == Ok(ScalarEntities(entryId, sensors))
    ensures |SetupResult(entryId, sensors, data).value| == |sensors|
  {
    assert ScalarEntities(entryId, sensors) + [] == ScalarEntities(entryId, sensors);
  }

  /** The poll result never lists disks, so setup after a poll creates the scalar entities only. */
  lemma SetupAfterPoll(entryId: string, config: ConfigData, env: Env)
    requires SnmpHelper.FetchResult(config, SENSORS, env).Ok?
    ensures SetupResult(entryId, SENSORS, Some(SnmpHelper.FetchResult(config, SENSORS, env).value)) == Ok(ScalarEntities(entryId, SENSORS))
  {
    SnmpHelper.FetchSensorTable(config, env);
    SetupWithoutDisks(entryId, SENSORS, Some(SnmpHelper.FetchResult(config, SENSORS, env).value));
  }

  /** A disk list whose indices are pairwise distinct. */
  predicate DistinctIndices(disks: seq<DiskRow>) {
    forall i, j :: 0 <= i < j < |disks| ==> disks[i].index != disks[j].index
  }

  /** The unique ids of the scalar entities are pairwise distinct, and none is a disk id. */
  lemma ScalarIdsDistinct(entryId: string)
    ensures forall i, j :: 0 <= i < j < |SENSORS| ==>
      ScalarEntity(entryId, SENSORS[i]).attrs.uniqueId != ScalarEntity(entryId, SENSORS[j]).attrs.uniqueId
    ensures forall i, index, metric :: 0 <= i < |SENSORS| ==>
      ScalarEntity(entryId, SENSORS[i]).attrs.uniqueId != DiskUniqueId(entryId, index, metric)
  {
    SensorKeysDistinct();
    SensorKeysNotDisk();
    forall i, j | 0 <= i < j < |SENSORS|
      ensures ScalarUniqueId(entryId, SENSORS[i].key) != ScalarUniqueId(entryId, SENSORS[j].key)
    {
      ScalarUniqueIdInjective(entryId, SENSORS[i].key, SENSORS[j].key);
    }
    forall i, index, metric | 0 <= i < |SENSORS|
      ensures ScalarUniqueId(entryId, SENSORS[i].key) != DiskUniqueId(entryId, index, metric)
    {
      ScalarDiskIdsDiffer(entryId, SENSORS[i].key, index, metric);
    }
  }

  /** Disk entities of disks with distinct indices have pairwise distinct ids. */
  lemma DiskIdsDistinct(entryId: string, disks: seq<DiskRow>, i: nat, k: nat, j: nat, l: nat)
    requires DistinctIndices(disks) && i < |disks| && j < |disks| && k < 4 && l < 4 && (i, k) != (j, l)
    ensures DiskUniqueId(entryId, disks[i].index, DISK_METRICS[k]) != DiskUniqueId(entryId, disks[j].index, DISK_METRICS[l])
  {
    DiskUniqueIdInjective(entryId, disks[i].index, DISK_METRICS[k], disks[j].index, DISK_METRICS[l]);
    if i == j {
      assert DISK_METRICS[k] != DISK_METRICS[l];
    } else {
      assert disks[i].index != disks[j].index;
    }
  }

  // ---------------------------------------------------------------- values

  /** The value a scalar sensor shows: nothing before the first poll, else `data.get(key)`. */
  function ScalarNativeValue(data: PollData, key: string): (v: Value)
    ensures data.None? ==> v == Null
    ensures data.Some? && key in data.value ==> v == data.value[key]
    ensures data.Some? && key !in data.value ==> v == Null
  {
    if data.None? then Null else GetOr(data.value, key, Null)
  }

  /** After a poll, each scalar entity shows what the poll made of its descriptor's reply. */
  lemma ScalarValueAfterPoll(entryId: string, config: ConfigData, env: Env, i: nat)
    requires SnmpHelper.FetchResult(config, SENSORS, env).Ok? && i < |SENSORS|
    ensures var e := ScalarEntity(entryId, SENSORS[i]);
      var auth := SnmpHelper.BuildAuthData(config, true).value;
      var transport := Target(SnmpHelper.SanitizeHost(config[CONF_HOST].s));
      ScalarNativeValue(Some(SnmpHelper.FetchResult(config, SENSORS, env).value), e.key) ==
        SnmpHelper.ResponseValue(SENSORS[i].key, env.get(auth, transport, SENSORS[i].oid))
  {
    SnmpHelper.FetchSensorTable(config, env);
  }

  /** The position of the first disk with the given index, if any. */
  function FirstDisk(disks: seq<DiskRow>, index: string): (r: Option<nat>)
    ensures r.Some? ==> r.value < |disks| && disks[r.value].index == index
    ensures r.Some? ==> forall j :: 0 <= j < r.value ==> disks[j].index != index
    ensures r.None? <==> forall j :: 0 <= j < |disks| ==> disks[j].index != index
  {
    if disks == [] then None
    else if disks[0].index == index then Some(0)
    else match FirstDisk(disks[1..], index)
      case None => None
      case Some(p) =>
        assert forall j :: 1 <= j < |disks| ==> disks[j] == disks[1..][j - 1];
        Some(p + 1)
  }

  /**
   * The value a disk sensor shows: nothing before the first poll; otherwise
   * the metric of the first listed disk with the sensor's index, nothing when
   * no disk has it, and the error of a disk entry that is not a list.
   */
  function DiskValue(data: PollData, index: string, metric: string): (r: Result<Value, PyError>)
    ensures data.None? ==> r == Ok(Null)
    ensures r.Err? ==> r.error == TypeError
    ensures data.Some? && RowsOf(data.value).Ok? && (forall j :: 0 <= j < |RowsOf(data.value).value| ==> RowsOf(data.value).value[j].index != index) ==>
      r == Ok(Null)
    ensures data.Some? && RowsOf(data.value).Ok? ==>
      var disks := RowsOf(data.value).value;
      forall i :: 0 <= i < |disks| && disks[i].index == index && (forall j :: 0 <= j < i ==> disks[j].index != index) ==>
        r == Ok(disks[i].Get(metric))
  {
    if data.None? then Ok(Null)
    else match RowsOf(data.value)
      case Err(e) => Err(e)
      case Ok(disks) =>
        match FirstDisk(disks, index)
        case None => Ok(Null)
        case Some(p) => Ok(disks[p].Get(metric))
  }

  /** `WDEx2UltraDiskSensor.native_value`: a search of the disk list that returns at the first match. */
  method DiskNativeValue(data: PollData, index: string, metric: string) returns (r: Result<Value, PyError>)
    ensures r == DiskValue(data, index, metric)
  {
    if data.None? {
      return Ok(Null);
    }
    var rows := RowsOf(data.value);
    if rows.Err? {
      return Err(rows.error);
    }
    var disks := rows.value;
    for j := 0 to |disks|
      invariant forall k :: 0 <= k < j ==> disks[k].index != index
    {
      if disks[j].index == index {
        return Ok(disks[j].Get(metric));
      }
    }
    return Ok(Null);
  }

  /** With distinct indices, each disk's sensors read that disk's own fields. */
  lemma DiskValueOfOwnDisk(m: map<string, Value>, disks: seq<DiskRow>, i: nat, metric: string)
    requires RowsOf(m) == Ok(disks) && DistinctIndices(disks) && i < |disks|
    ensures DiskValue(Some(m), disks[i].index, metric) == Ok(disks[i].Get(metric))
  {
    var p := FirstDisk(disks, disks[i].index);
    assert p == Some(i);
  }

  /** The poll result lists no disks, so every disk sensor shows nothing after a poll. */
  lemma DiskValueAfterPoll(config: ConfigData, env: Env, index: string, metric: string)
    requires SnmpHelper.FetchResult(config, SENSORS, env).Ok?
    ensures DiskValue(Some(SnmpHelper.FetchResult(config, SENSORS, env).value), index, metric) == Ok(Null)
  {
    SnmpHelper.FetchSensorTable(config, env);
  }

  /**
   * The scalar entities keep every class the table declares: the system
   * temperature is the only temperature-class entity, and an entity has a
   * state class exactly when its descriptor names one.
   */
  lemma ScalarEntityClasses(entryId: string)
    ensures forall i :: 0 <= i < |SENSORS| ==>
      (ScalarEntity(entryId, SENSORS[i]).attrs.deviceClass == Some(Temperature) <==> SENSORS[i].key == "system_temperature")
    ensures forall i :: 0 <= i < |SENSORS| ==>
      (ScalarEntity(entryId, SENSORS[i]).attrs.stateClass.None? <==> SENSORS[i].stateClass.None?)
  {
    SensorClasses();
  }

  /** The first loop of `async_setup_entry`: one entity per descriptor, in table order. */
  method ScalarEntityList(entryId: string, sensors: seq<SensorDef>) returns (entities: seq<Entity>)
    ensures entities == ScalarEntities(entryId, sensors)
  {
    entities := [];
    for i := 0 to |sensors|
      invariant entities == ScalarEntities(entryId, sensors[..i])
    {
      assert sensors[..i + 1][..i] == sensors[..i];
      entities := entities + [ScalarEntity(entryId, sensors[i])];
    }
    assert sensors[..|sensors|] == sensors;
  }

  /** `async_setup_entry`: the scalar entities in table order, then four per disk. */
  method SetupEntities(entryId: string, data: PollData) returns (r: Result<seq<Entity>, PyError>)
    ensures r == SetupResult(entryId, SENSORS, data)
  {
    var entities := ScalarEntityList(entryId, SENSORS);
    var rows := DisksOf(data);
    if rows.Err? {
      return Err(rows.error);
    }
    var disks := rows.value;
    var group := Grouping(entryId);
    var diskEntities: seq<Entity> := [];
    for j := 0 to |disks|
      invariant DisksEntities(disks[..j], group) == Ok(diskEntities)
    {
      assert disks[..j + 1][..j] == disks[..j];
      var model := ModelOf(disks[j]);
      if model.Err? {
        ErrorPersists(disks, group, j, |disks|);
        assert disks[..|disks|] == disks;
        return Err(model.error);
      }
      diskEntities := diskEntities + group(disks[j].index, model.value);
    }
    assert disks[..|disks|] == disks;
    return Ok(entities + diskEntities);
  }

  /** Once a disk's model fails, the setup fails with that error however many disks follow. */
  lemma {:induction false} ErrorPersists(disks: seq<DiskRow>, group: (string, string) -> seq<Entity>, j: nat, k: nat)
    requires j < k <= |disks| && DisksEntities(disks[..j], group).Ok? && ModelOf(disks[j]).Err?
    ensures DisksEntities(disks[..k], group) == Err(ModelOf(disks[j]).error)
    decreases k
  {
    var prefix := disks[..k];
    assert prefix[..|prefix| - 1] == disks[..k - 1];
    if k > j + 1 {
      ErrorPersists(disks, group, j, k - 1);
      assert DisksEntities(prefix[..|prefix| - 1], group) == Err(ModelOf(disks[j]).error);
    } else {
      assert prefix[|prefix| - 1] == disks[j];
      assert DisksEntities(prefix[..|prefix| - 1], group).Ok?;
    }
  }
}
