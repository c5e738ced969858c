/**
 * The dynamic values the integration passes around: entries of the
 * configuration dictionaries, values of the coordinator's data dictionary,
 * and the exceptions a call may raise.
 */
module Values {

  /**
   * A value of a configuration-entry or form dictionary: the forms produce
   * strings, except the scan interval, which is an integer.
   */
  datatype ConfigValue = Str(s: string) | Int(i: int)

  /** A configuration-entry or user-input dictionary. */
  type ConfigData = map<string, ConfigValue>

  /** Python's `d.get(k, default)`. */
  function GetOr<K, V>(m: map<K, V>, k: K, default: V): V {
    if k in m then m[k] else default
  }

  /**
   * A value of the coordinator's data dictionary: `None`, a float, a string,
   * or the list of disk records that the sensor platform looks for under
   * the key `"_disks"`.
   */
  datatype Value = Null | Num(r: real) | Text(s: string) | Disks(rows: seq<DiskRow>)

  /** One disk record: its `"index"` and its other fields by name. */
  datatype DiskRow = DiskRow(index: string, fields: map<string, Value>) {
    /** Python's `disk.get(k)`. */
    function Get(k: string): Value {
      if k == "index" then Text(index) else if k in fields then fields[k] else Null
    }
  }

  /** The exceptions the modelled code can raise or catch. */
  datatype PyError =
    | KeyError(key: string)
    | AttributeError
    | TypeError
    | ImportError
    | SnmpLibraryMissing
    | TransportError
    | RequestError
}
