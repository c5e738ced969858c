/**
 * The integration's constants: configuration keys, option lists, the
 * WD MYCLOUDEX2ULTRA-MIB object identifiers, and the table of scalar sensors
 * that every poll fetches.
 */
module Const {
  import opened Wrappers
  import opened Strings

  const DOMAIN := "wd_ex2_ultra"

  // Configuration keys
  const CONF_SNMP_VERSION := "snmp_version"
  const CONF_HOST := "host"
  const CONF_COMMUNITY := "community"
  const CONF_USERNAME := "username"
  const CONF_AUTH_PROTOCOL := "auth_protocol"
  const CONF_AUTH_PASSWORD := "auth_password"
  const CONF_PRIV_PROTOCOL := "priv_protocol"
  const CONF_PRIV_PASSWORD := "priv_password"
  const CONF_SCAN_INTERVAL := "scan_interval"

  // SNMP versions offered by the setup flow
  const SNMP_VERSION_V2C := "SNMPv2c"
  const SNMP_VERSION_V3 := "SNMPv3"

  const AUTH_PROTOCOLS := ["MD5", "SHA"]
  const PRIV_PROTOCOLS := ["DES", "AES"]

  /** Polling interval choices, in seconds. */
  const SCAN_INTERVAL_OPTIONS := [30, 60, 120]
  const DEFAULT_SCAN_INTERVAL := 60

  /** enterprises.WD(5127).productID(1).projectID(1).modelID(1).submodelID(8).nasAgent(1) */
  const WD_NAS_AGENT := "1.3.6.1.4.1.5127.1.1.1.8.1"

  // Scalar WD objects (instance suffix .0 included)
  const WD_OID_SYSTEM_TEMP := WD_NAS_AGENT + ".7.0"
  const WD_OID_FAN_STATUS := WD_NAS_AGENT + ".8.0"
  const WD_OID_SW_VERSION := WD_NAS_AGENT + ".2.0"
  const WD_OID_HOSTNAME := WD_NAS_AGENT + ".3.0"

  // Disk table nasAgent.10, entry .1, columns .1 to .6
  const WD_DISK_TABLE_ROOT := WD_NAS_AGENT + ".10"
  const WD_DISK_COL_NUM := WD_NAS_AGENT + ".10.1.1"
  const WD_DISK_COL_VENDOR := WD_NAS_AGENT + ".10.1.2"
  const WD_DISK_COL_MODEL := WD_NAS_AGENT + ".10.1.3"
  const WD_DISK_COL_SERIAL := WD_NAS_AGENT + ".10.1.4"
  const WD_DISK_COL_TEMPERATURE := WD_NAS_AGENT + ".10.1.5"
  const WD_DISK_COL_CAPACITY := WD_NAS_AGENT + ".10.1.6"

  // Volume table nasAgent.9, entry .1, columns .1 to .6
  const WD_VOL_COL_NUM := WD_NAS_AGENT + ".9.1.1"
  const WD_VOL_COL_NAME := WD_NAS_AGENT + ".9.1.2"
  const WD_VOL_COL_FSTYPE := WD_NAS_AGENT + ".9.1.3"
  const WD_VOL_COL_RAIDLEVEL := WD_NAS_AGENT + ".9.1.4"
  const WD_VOL_COL_SIZE := WD_NAS_AGENT + ".9.1.5"
  const WD_VOL_COL_FREESPACE := WD_NAS_AGENT + ".9.1.6"

  /** The disk and volume column roots, in column order. */
  const DISK_COLUMNS := [WD_DISK_COL_NUM, WD_DISK_COL_VENDOR, WD_DISK_COL_MODEL,
                         WD_DISK_COL_SERIAL, WD_DISK_COL_TEMPERATURE, WD_DISK_COL_CAPACITY]
  const VOLUME_COLUMNS := [WD_VOL_COL_NUM, WD_VOL_COL_NAME, WD_VOL_COL_FSTYPE,
                           WD_VOL_COL_RAIDLEVEL, WD_VOL_COL_SIZE, WD_VOL_COL_FREESPACE]

  /** One entry of the sensor table; an absent optional field is `None`. */
  datatype SensorDef = SensorDef(
    key: string,
    name: string,
    oid: string,
    unit: string,
    icon: string,
    deviceClass: Option<string>,
    stateClass: Option<string>,
    transform: Option<string>)

  /** sysUpTime.0: polled by the uptime sensor and read by both connection tests. */
  const SYS_UPTIME_OID := "1.3.6.1.2.1.1.3.0"

  /** The scalar sensors, in the order they are fetched and created. */
  const SENSORS: seq<SensorDef> := [
    SensorDef("cpu_load_1min", "CPU Load 1min", "1.3.6.1.4.1.2021.10.1.3.1", "%",
              "mdi:cpu-64-bit", None, Some("measurement"), None),
    SensorDef("cpu_load_5min", "CPU Load 5min", "1.3.6.1.4.1.2021.10.1.3.2", "%",
              "mdi:cpu-64-bit", None, Some("measurement"), None),
    SensorDef("cpu_load_15min", "CPU Load 15min", "1.3.6.1.4.1.2021.10.1.3.3", "%",
              "mdi:cpu-64-bit", None, Some("measurement"), None),
    SensorDef("ram_total", "RAM Total", "1.3.6.1.4.1.2021.4.5.0", "MiB",
              "mdi:memory", None, Some("measurement"), Some("kb_to_mib")),
    SensorDef("ram_free", "RAM Free", "1.3.6.1.4.1.2021.4.11.0", "MiB",
              "mdi:memory", None, Some("measurement"), Some("kb_to_mib")),
    SensorDef("ram_used", "RAM Used", "1.3.6.1.4.1.2021.4.6.0", "MiB",
              "mdi:memory", None, Some("measurement"), Some("kb_to_mib")),
    SensorDef("system_temperature", "System Temperature", WD_OID_SYSTEM_TEMP, "\U{B0}C",
              "mdi:thermometer", Some("temperature"), Some("measurement"), None),
    SensorDef("fan_status", "Fan Status", WD_OID_FAN_STATUS, "",
              "mdi:fan", None, None, None),
    SensorDef("network_in", "Network In (eth0)", "1.3.6.1.2.1.2.2.1.10.2", "B",
              "mdi:download-network", None, Some("total_increasing"), None),
    SensorDef("network_out", "Network Out (eth0)", "1.3.6.1.2.1.2.2.1.16.2", "B",
              "mdi:upload-network", None, Some("total_increasing"), None),
    SensorDef("system_uptime", "System Uptime", SYS_UPTIME_OID, "s",
              "mdi:timer-outline", None, Some("measurement"), None)
  ]

  /** Position of the uptime sensor in the table. */
  const UPTIME_INDEX := 10

  /** The set of keys of a sensor list. */
  function KeysOf(sensors: seq<SensorDef>): set<string> {
    set i | 0 <= i < |sensors| :: sensors[i].key
  }

  predicate DistinctKeys(sensors: seq<SensorDef>) {
    forall i, j :: 0 <= i < |sensors| && 0 <= j < |sensors| && i != j ==> sensors[i].key != sensors[j].key
  }

  /** The OID of scalar object `k` of the NAS agent. */
  function WdScalarOid(k: nat): string {
    WD_NAS_AGENT + "." + NatToString(k) + ".0"
  }

  lemma SensorKeysDistinct()
    ensures DistinctKeys(SENSORS)
  {
    forall i, j | 0 <= i < |SENSORS| && 0 <= j < |SENSORS| && i != j
      ensures SENSORS[i].key != SENSORS[j].key
    {
      // any two keys differ in length, in their first or last character, or four from the end
      var a, b := SENSORS[i].key, SENSORS[j].key;
      assert |a| != |b| || a[0] != b[0] || a[|a| - 1] != b[|b| - 1] || a[|a| - 4] != b[|b| - 4];
    }
  }

  /** The sensor platform's disk list `"_disks"` is not a sensor key. */
  lemma NoDisksKey()
    ensures "_disks" !in KeysOf(SENSORS)
  {
    assert forall i :: 0 <= i < |SENSORS| ==> SENSORS[i].key[0] != '_';
  }

  /** None of the CPU and RAM keys contains `"temperature"`: each lacks one of its letters. */
  lemma NonTemperatureKeysCpuRam()
    ensures !Contains("cpu_load_1min", "temperature") && !Contains("cpu_load_5min", "temperature")
    ensures !Contains("cpu_load_15min", "temperature") && !Contains("ram_total", "temperature")
    ensures !Contains("ram_free", "temperature") && !Contains("ram_used", "temperature")
  {
    MissingCharNotContained("cpu_load_1min", "temperature", 't');
    MissingCharNotContained("cpu_load_5min", "temperature", 't');
    MissingCharNotContained("cpu_load_15min", "temperature", 't');
    MissingCharNotContained("ram_total", "temperature", 'e');
    MissingCharNotContained("ram_free", "temperature", 't');
    MissingCharNotContained("ram_used", "temperature", 't');
  }

  /** Nor do the fan, network and uptime keys. */
  lemma NonTemperatureKeysOther()
    ensures !Contains("fan_status", "temperature") && !Contains("network_in", "temperature")
    ensures !Contains("network_out", "temperature") && !Contains("system_uptime", "temperature")
  {
    MissingCharNotContained("fan_status", "temperature", 'e');
    MissingCharNotContained("network_in", "temperature", 'm');
    MissingCharNotContained("network_out", "temperature", 'm');
    MissingCharNotContained("system_uptime", "temperature", 'a');
  }

  /** `system_temperature` is the one key that contains `"temperature"`. */
  lemma OneTemperatureKey()
    ensures "system_temperature" in KeysOf(SENSORS)
    ensures forall i :: 0 <= i < |SENSORS| ==> (Contains(SENSORS[i].key, "temperature") <==> SENSORS[i].key == "system_temperature")
  {
    NonTemperatureKeysCpuRam();
    NonTemperatureKeysOther();
    assert StartsWith(SENSORS[6].key[7..], "temperature");
  }

  /** Exactly one entry has the key `system_uptime`, and it asks for sysUpTime.0. */
  lemma OneUptimeKey()
    ensures forall i :: 0 <= i < |SENSORS| ==> (SENSORS[i].key == "system_uptime" <==> i == UPTIME_INDEX)
    ensures SENSORS[UPTIME_INDEX].oid == SYS_UPTIME_OID
  {
  }

  /** The WD scalar objects are `nasAgent.k.0`. */
  lemma WdScalarOids()
    ensures WD_OID_SYSTEM_TEMP == WdScalarOid(7)
    ensures WD_OID_FAN_STATUS == WdScalarOid(8)
    ensures WD_OID_SW_VERSION == WdScalarOid(2)
    ensures WD_OID_HOSTNAME == WdScalarOid(3)
  {
  }

  /** Disk columns are `nasAgent.10.1.k` and volume columns `nasAgent.9.1.k`, for k = 1..6. */
  lemma TableColumns()
    ensures |DISK_COLUMNS| == 6 && |VOLUME_COLUMNS| == 6
    ensures forall k :: 1 <= k <= 6 ==> DISK_COLUMNS[k - 1] == WD_DISK_TABLE_ROOT + ".1." + NatToString(k)
    ensures forall k :: 1 <= k <= 6 ==> VOLUME_COLUMNS[k - 1] == WD_NAS_AGENT + ".9.1." + NatToString(k)
  {
  }

  /** No two column roots are the same. */
  lemma TableColumnsDistinct()
    ensures forall i, j :: 0 <= i < j < 6 ==> DISK_COLUMNS[i] != DISK_COLUMNS[j]
    ensures forall i, j :: 0 <= i < j < 6 ==> VOLUME_COLUMNS[i] != VOLUME_COLUMNS[j]
    ensures forall i, j :: 0 <= i < 6 && 0 <= j < 6 ==> DISK_COLUMNS[i] != VOLUME_COLUMNS[j]
  {
    TableColumns();
    forall i, j | 0 <= i < j < 6
      ensures DISK_COLUMNS[i] != DISK_COLUMNS[j] && VOLUME_COLUMNS[i] != VOLUME_COLUMNS[j]
    {
      var a, b := DISK_COLUMNS[i], DISK_COLUMNS[j];
      assert a[|a| - 1] == NatToString(i + 1)[0] != NatToString(j + 1)[0] == b[|b| - 1];
      var c, d := VOLUME_COLUMNS[i], VOLUME_COLUMNS[j];
      assert c[|c| - 1] == NatToString(i + 1)[0] != NatToString(j + 1)[0] == d[|d| - 1];
    }
    forall i, j | 0 <= i < 6 && 0 <= j < 6 ensures DISK_COLUMNS[i] != VOLUME_COLUMNS[j] {
      var a, b := DISK_COLUMNS[i], VOLUME_COLUMNS[j];
      assert a[|WD_NAS_AGENT| + 1] == '1' != '9' == b[|WD_NAS_AGENT| + 1];
    }
  }

  /** The defaults are among the options offered. */
  lemma DefaultsOffered()
    ensures DEFAULT_SCAN_INTERVAL in SCAN_INTERVAL_OPTIONS
    ensures "MD5" in AUTH_PROTOCOLS && "DES" in PRIV_PROTOCOLS
  {
  }

  /** The keys of the three RAM readings. */
  const RAM_KEYS := {"ram_total", "ram_free", "ram_used"}

  /** Only the three RAM entries carry a transform, and it is `kb_to_mib`. */
  lemma RamTransforms()
    ensures forall i :: 0 <= i < |SENSORS| ==> (SENSORS[i].transform.Some? <==> SENSORS[i].key in RAM_KEYS)
    ensures forall i :: 0 <= i < |SENSORS| && SENSORS[i].transform.Some? ==> SENSORS[i].transform == Some("kb_to_mib")
    ensures RAM_KEYS <= KeysOf(SENSORS)
  {
    assert SENSORS[3].key == "ram_total" && SENSORS[4].key == "ram_free" && SENSORS[5].key == "ram_used";
  }

  /** Every state class and device class in the table is one the sensor platform knows. */
  lemma SensorClasses()
    ensures forall i :: 0 <= i < |SENSORS| ==>
      SENSORS[i].stateClass in {None, Some("measurement"), Some("total_increasing")}
    ensures forall i :: 0 <= i < |SENSORS| ==>
      (SENSORS[i].deviceClass == Some("temperature") <==> SENSORS[i].key == "system_temperature") &&
      (SENSORS[i].deviceClass.None? <==> SENSORS[i].key != "system_temperature")
  {
  }
}
