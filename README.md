# WD MyCloud EX2 Ultra SNMP integration — a Dafny model

This project models the logic of the Home Assistant integration for the
WD MyCloud EX2 Ultra NAS. The integration reads the NAS over SNMP
(SNMPv2c with a community string, or SNMPv3 with a USM user, RFC 3414).
The model covers four parts of the integration:

- **Shared SNMP helpers** (`snmp_helper.py`, module `SnmpHelper`):
  - host sanitizing;
  - the WD temperature format `Centigrade:NN`;
  - the choice of credentials;
  - the connection test on sysUpTime.0;
  - the per-poll fetch, which reads every scalar sensor and normalises each
    reply by its key.
- **Descriptor table and constants** (`const.py`, module `Const`): the
  sensor descriptor table `SENSORS`, the WD OIDs, and the option lists and
  defaults.
- **Setup flow** (`config_flow.py`, module `ConfigFlow`):
  - the version step and the two credential steps, as a class whose version
    field the first step sets;
  - the connection test the flow has its own copy of;
  - the entry data each step builds;
  - the mapping of test outcomes to form error codes.
- **Sensor platform** (`sensor.py`, module `Sensor`):
  - the entities created at setup: one per descriptor, then four per listed
    disk;
  - their labels, unique ids, units and classes;
  - the two `native_value` lookups.

The supporting modules are:

- `Wrappers`: `Option` and `Result`.
- `Strings`: the parts of Python's `str` the code relies on, namely
  `strip`, `rstrip(c)`, `startswith`, `in`, and the decimal-literal subset
  of `int()` and `float()`.
- `Values`: configuration values, data-dictionary values and the
  exceptions.
- `Snmp`: what the integration sees of the SNMP library.

The SNMP library and the network are one value, `Snmp.Env`. It combines
three things:

- whether the library can be imported;
- which host names a UDP target can be built for;
- the agent's `Response` to a GET of an OID with given credentials.

A response is one of three outcomes:

- the call raised;
- a reply with the error indication set;
- a reply with the error status set, or else the rendered value string.

An exception the Python code raises becomes the `Err` side of a `Result`,
carrying a `Values.PyError`. Python `float` results are `real`s.

Each imperative routine is a method proved equal to a specification
function. The properties are proved about those functions:

| method | specification function |
|---|---|
| `FetchSnmpData` | `FetchResult` |
| `WDEx2UltraConfigFlow.StepV2c`, `WDEx2UltraConfigFlow.StepV3` | `V2cStepResult`, `V3StepResult` |
| `SetupEntities` | `SetupResult` |
| `DiskNativeValue` | `DiskValue` |

## Model

| member | source | states |
|---|---|---|
| Const.SensorKeysDistinct | custom_components/wd_ex2_ultra/const.py:69-172 | no two descriptors share a key |
| Const.NoDisksKey | custom_components/wd_ex2_ultra/const.py:69-172 | `"_disks"`, the key the sensor platform reads disks from, is not a descriptor key |
| Const.NonTemperatureKeysCpuRam | custom_components/wd_ex2_ultra/const.py:71-118 | none of the six CPU and RAM keys contains `"temperature"` |
| Const.NonTemperatureKeysOther | custom_components/wd_ex2_ultra/const.py:137-164 | none of the fan, network and uptime keys contains `"temperature"` |
| Const.OneTemperatureKey | custom_components/wd_ex2_ultra/const.py:127-135 | `system_temperature` is a key of the table, and it is the only key that contains `"temperature"` |
| Const.OneUptimeKey | custom_components/wd_ex2_ultra/const.py:163-171 | exactly one entry has key `system_uptime`, and its OID is `SYS_UPTIME_OID`, the sysUpTime.0 that both connection tests read |
| Const.WdScalarOids | custom_components/wd_ex2_ultra/const.py:36-42 | each WD scalar OID is the NAS agent OID followed by `.k.0` |
| Const.TableColumns | custom_components/wd_ex2_ultra/const.py:48-64 | disk column k is the disk table root + `.1.k`; volume column k is the agent + `.9.1.k`, for k = 1..6 |
| Const.TableColumnsDistinct | custom_components/wd_ex2_ultra/const.py:48-64 | all twelve column roots are pairwise distinct |
| Const.DefaultsOffered | custom_components/wd_ex2_ultra/const.py:21-28 | the default scan interval and the default protocols `MD5`/`DES` are among the options |
| Const.RamTransforms | custom_components/wd_ex2_ultra/const.py:97-126 | an entry carries a transform iff its key is `ram_total`, `ram_free` or `ram_used`, all three are in the table, and the transform is `kb_to_mib` |
| Const.SensorClasses | custom_components/wd_ex2_ultra/const.py:69-172 | every state class is `measurement`, `total_increasing` or none; only `system_temperature` has a device class, and it is `temperature` |
| SnmpHelper.SchemeLength | custom_components/wd_ex2_ultra/snmp_helper.py:27 | the prefix `^https?://` matches with length 7 iff the host starts with `http://`, 8 iff with `https://`, else not at all |
| SnmpHelper.SanitizeHost | custom_components/wd_ex2_ultra/snmp_helper.py:24-29 | the result never ends in `/` and is never longer than the input |
| SnmpHelper.SanitizeHostParts | custom_components/wd_ex2_ultra/snmp_helper.py:26-28 | the result is the stripped host after its scheme, and only `/` characters follow it there |
| SnmpHelper.SanitizeCleanHost | custom_components/wd_ex2_ultra/snmp_helper.py:24-29 | a host without surrounding whitespace, scheme or trailing slash is returned unchanged |
| SnmpHelper.SanitizeOneScheme | custom_components/wd_ex2_ultra/snmp_helper.py:26-28 | scheme + h + slashes becomes h, for any h not ending in whitespace or `/`, even when h starts with another scheme: one scheme is removed, no more |
| SnmpHelper.SanitizeExampleUrl | custom_components/wd_ex2_ultra/snmp_helper.py:24-29 | `"https://nas.local/"` becomes `"nas.local"` |
| SnmpHelper.SanitizeExampleScheme | custom_components/wd_ex2_ultra/snmp_helper.py:24-29 | `"http://nas"` becomes `"nas"` |
| SnmpHelper.SanitizeExampleDoubleScheme | custom_components/wd_ex2_ultra/snmp_helper.py:27 | `"http://http://nas"` becomes `"http://nas"` |
| SnmpHelper.FindCentigrade | custom_components/wd_ex2_ultra/snmp_helper.py:38 | the search returns the leftmost position where `Centigrade:\s*\d` matches, and nothing only when there is no match |
| SnmpHelper.DigitsParseAsFloat | custom_components/wd_ex2_ultra/snmp_helper.py:40-41 | `float()` of the captured digit run succeeds with the run's decimal value, so the `except` at line 42 is never taken |
| SnmpHelper.ParseWdTemperature | custom_components/wd_ex2_ultra/snmp_helper.py:32-50 | the empty reading gives `None`; a reading with a `Centigrade:` match always gives a whole, non-negative number of degrees (the value itself: `TemperatureLeftmostMatch`, `TemperatureNoMatch`) |
| SnmpHelper.TemperatureEmpty | custom_components/wd_ex2_ultra/snmp_helper.py:34-35 | the empty reading gives `None` |
| SnmpHelper.TemperatureLeftmostMatch | custom_components/wd_ex2_ultra/snmp_helper.py:38-41 | with a match, the value is that of the digit run of the leftmost match, whatever follows |
| SnmpHelper.TemperatureNoMatch | custom_components/wd_ex2_ultra/snmp_helper.py:45-50 | without a match, the result is the plain-number parse of the whole reading, or `None`; no exception escapes |
| SnmpHelper.PlainTemperature | custom_components/wd_ex2_ultra/snmp_helper.py:46-47 | an integer reading in the fallback format comes back as its value |
| SnmpHelper.TemperatureExamples | custom_components/wd_ex2_ultra/snmp_helper.py:32-41 | `"Centigrade:48 \tFahrenheit:118"` gives 48.0 |
| SnmpHelper.AuthProtocolFor | custom_components/wd_ex2_ultra/snmp_helper.py:85-97 | HMAC-SHA exactly for `"SHA"`; every other name, `"MD5"` included, gives HMAC-MD5, never an error |
| SnmpHelper.PrivProtocolFor | custom_components/wd_ex2_ultra/snmp_helper.py:89-98 | AES-CFB-128 exactly for `"AES"`; every other name, `"DES"` included, gives CBC-DES, never an error |
| SnmpHelper.FirstMissing | custom_components/wd_ex2_ultra/snmp_helper.py:93-98 | none is missing iff all keys are present; otherwise the result is absent from the data and every key before it is present |
| SnmpHelper.UsmKeyOrder | custom_components/wd_ex2_ultra/snmp_helper.py:93-98 | the `KeyError` names the first absent key in the order user name, auth password, priv password, auth protocol, priv protocol |
| SnmpHelper.VersionOf | custom_components/wd_ex2_ultra/snmp_helper.py:80 | the entry's own `snmp_version` when it has one, and v2c when the key is absent; `BuildAuthData` branches on it |
| SnmpHelper.BuildAuthData | custom_components/wd_ex2_ultra/snmp_helper.py:53-99 | the library check comes first; a missing version means v2c; v2c gives a community credential (default `"public"`, mpModel 1); any other version gives the USM user built from the five keys, and fails with a `KeyError` on one of them exactly when a key is absent |
| SnmpHelper.UsmUserNameFirst | custom_components/wd_ex2_ultra/snmp_helper.py:93-94 | a USM entry without a user name fails on the user name |
| SnmpHelper.TicksToTenths | custom_components/wd_ex2_ultra/snmp_helper.py:193 | `round(n/100, 1)` in tenths: within half a tenth of n/100, the even neighbour on a tie |
| SnmpHelper.TicksToTenthsUnique | custom_components/wd_ex2_ultra/snmp_helper.py:193 | that rounding contract has exactly one solution |
| SnmpHelper.UptimeValue | custom_components/wd_ex2_ultra/snmp_helper.py:191-195 | a number exactly when `int()` accepts the reading, then within 0.05 s of ticks/100; otherwise the raw string |
| SnmpHelper.PostProcess | custom_components/wd_ex2_ultra/snmp_helper.py:188-206 | the uptime key goes first; next a key containing `"temperature"` uses the WD parser (the value can be `None` on a clean reply); every other key gets `float()`, or the raw string on failure |
| SnmpHelper.UptimeKeyNotTemperature | custom_components/wd_ex2_ultra/snmp_helper.py:191-198 | the uptime key does not contain `"temperature"`, so the first two branches never compete |
| SnmpHelper.PostProcessInteger | custom_components/wd_ex2_ultra/snmp_helper.py:188-206 | a rendered integer is stored as that number under every key except uptime, which becomes seconds |
| SnmpHelper.ResponseValue | custom_components/wd_ex2_ultra/snmp_helper.py:179-186 | an exception, an error indication or an error status stores `None` |
| SnmpHelper.Collect | custom_components/wd_ex2_ultra/snmp_helper.py:164-208 | the result has exactly the descriptor keys |
| SnmpHelper.CollectAt | custom_components/wd_ex2_ultra/snmp_helper.py:166-186 | a key holds the outcome of the last descriptor with that key; failures of other descriptors do not matter |
| SnmpHelper.CollectDistinct | custom_components/wd_ex2_ultra/snmp_helper.py:166-186 | with distinct keys, every descriptor's own outcome is stored, whatever happened to the others |
| SnmpHelper.CollectIgnoresOtherFields | custom_components/wd_ex2_ultra/snmp_helper.py:166-177 | two descriptor lists that agree on keys and OIDs give the same result: name, unit, icon, classes and `transform` have no effect |
| SnmpHelper.FetchResult | custom_components/wd_ex2_ultra/snmp_helper.py:146-208 | a poll fails iff the library is missing, the host is missing or not a string, a credential is missing, or no UDP target can be built for the sanitized host, never because of a request; a successful poll has exactly the descriptor keys |
| SnmpHelper.FetchSnmpData | custom_components/wd_ex2_ultra/snmp_helper.py:146-208 | the loop computes `FetchResult`: the library, host, credentials and transport checks in order, then one stored outcome per descriptor, continuing after failures |
| SnmpHelper.FetchKeys | custom_components/wd_ex2_ultra/snmp_helper.py:164-208 | a successful poll's keys are exactly the descriptor keys |
| SnmpHelper.FetchFailureIndependent | custom_components/wd_ex2_ultra/snmp_helper.py:148-162 | whether a poll fails, and with which error, does not depend on the descriptors or on the agent's replies |
| SnmpHelper.FetchSensorTable | custom_components/wd_ex2_ultra/snmp_helper.py:166-208 | a poll of `SENSORS` stores under each key the normalised reply to that descriptor's OID on the sanitized host, and nothing under `"_disks"` |
| SnmpHelper.TestSnmpConnection | custom_components/wd_ex2_ultra/snmp_helper.py:102-143 | the library error is raised exactly when the library is missing (the other outcomes: `TestFailsBeforeReply`, `TestReplyOutcome`) |
| SnmpHelper.TestFailsBeforeReply | custom_components/wd_ex2_ultra/snmp_helper.py:118-136 | a missing or non-string host, a missing credential or an unresolvable host each end in CannotConnect |
| SnmpHelper.TestReplyOutcome | custom_components/wd_ex2_ultra/snmp_helper.py:123-143 | once the GET is sent: CannotConnect iff it raised or has an error indication; InvalidAuth iff no indication but an error status; Connected iff neither |
| SnmpHelper.TestReadsOnlyUptime | custom_components/wd_ex2_ultra/snmp_helper.py:119-129 | the test's outcome depends only on the agent's answer for sysUpTime.0 on the sanitized host |
| SnmpHelper.TestIndicationFirst | custom_components/wd_ex2_ultra/snmp_helper.py:138-143 | an error indication means CannotConnect whatever the error status |
| SnmpHelper.TestAgreesWithFetch | custom_components/wd_ex2_ultra/snmp_helper.py:102-143 | after a successful poll, the test connects exactly when the poll stored an uptime; InvalidAuth leaves the uptime `None` |
| ConfigFlow.TestAuthData | custom_components/wd_ex2_ultra/config_flow.py:58-78 | credentials fail only with a `KeyError` naming a key absent from the entry (equal to the helper's: `TestAuthDataAgrees`) |
| ConfigFlow.TestAuthDataAgrees | custom_components/wd_ex2_ultra/config_flow.py:58-78 | the flow's own credential selection equals the helper's, including which key a `KeyError` names |
| ConfigFlow.TestSnmp | custom_components/wd_ex2_ultra/config_flow.py:41-93 | the test ends in success, CannotConnect or InvalidAuth only when the library is present and the host, a string, resolves as entered; anything else is an exception |
| ConfigFlow.TestSnmpFailsBeforeReply | custom_components/wd_ex2_ultra/config_flow.py:43-80 | the missing library is an `ImportError`, a missing host a `KeyError(host)`, a missing credential its `KeyError`, a host that is not a string or does not resolve a transport error; each such exception shows `unknown` |
| ConfigFlow.TestSnmpReplyOutcome | custom_components/wd_ex2_ultra/config_flow.py:81-93 | once the GET is sent: a raising request is an unexpected error; `cannot_connect` iff an error indication; `invalid_auth` iff no indication but an error status; valid iff neither |
| ConfigFlow.TestSnmpAgreesWithHelper | custom_components/wd_ex2_ultra/config_flow.py:41-93 | for a host that needs no sanitizing, the flow's test and the helper's agree on success and InvalidAuth; every other exception in the flow is CannotConnect for the helper |
| ConfigFlow.UnsanitizedHostRejected | custom_components/wd_ex2_ultra/config_flow.py:59-80 | the flow uses the host unsanitized: where only the sanitized name resolves, the flow fails and the helper's test connects |
| ConfigFlow.ErrorCode | custom_components/wd_ex2_ultra/config_flow.py:145-153 | no code iff valid; `cannot_connect`, `invalid_auth` and `unknown` exactly for CannotConnect, InvalidAuth and any other exception |
| ConfigFlow.EntryTitle | custom_components/wd_ex2_ultra/config_flow.py:155-158 | the title is `WD EX2 Ultra (<host>)` and contains the host |
| ConfigFlow.V2cEntryData | custom_components/wd_ex2_ultra/config_flow.py:139-144 | fails with `KeyError(host)` iff the host is missing; otherwise exactly version, host, community (default `"public"`) and scan interval (default 60) |
| ConfigFlow.V3EntryData | custom_components/wd_ex2_ultra/config_flow.py:180-189 | fails with a `KeyError` naming a missing field iff one of the six is missing; otherwise those six copied verbatim, with the version and the scan interval |
| ConfigFlow.V3HostFirst | custom_components/wd_ex2_ultra/config_flow.py:182 | a missing host is the error reported, whatever else is missing |
| ConfigFlow.StepResult | custom_components/wd_ex2_ultra/config_flow.py:145-158 | the submitted half shared by both steps (the v3 copy is lines 190-203 of the same file): test the entry, then create it or show the form with the error; its outcomes are stated by `StepOutcomes` |
| ConfigFlow.V2cStepResult | custom_components/wd_ex2_ultra/config_flow.py:132-171 | the v2c step: its form when nothing was submitted, else `StepResult` on the entry `V2cEntryAuth` reads back as the community credential; `StepV2c` is proved equal to it |
| ConfigFlow.V3StepResult | custom_components/wd_ex2_ultra/config_flow.py:173-220 | the v3 step: its form when nothing was submitted, else `StepResult` on the entry `V3EntryAuth` reads back as the USM user; `StepV3` is proved equal to it |
| ConfigFlow.StepOutcomes | custom_components/wd_ex2_ultra/config_flow.py:145-158 | a submitted step either raises on a missing field, shows its form again with exactly one `base` error, or creates the entry with the tested data and the host in the title |
| ConfigFlow.V2cEntryAuth | custom_components/wd_ex2_ultra/config_flow.py:139-144 | the helper reads a v2c entry as a community credential with the form's community |
| ConfigFlow.V3EntryAuth | custom_components/wd_ex2_ultra/config_flow.py:180-189 | the helper reads a v3 entry as the USM user the form described |
| ConfigFlow.WDEx2UltraConfigFlow.constructor | custom_components/wd_ex2_ultra/config_flow.py:109-111 | no version is chosen yet |
| ConfigFlow.WDEx2UltraConfigFlow.StepUser | custom_components/wd_ex2_ultra/config_flow.py:113-130 | no input shows the `user` form; a missing version raises; otherwise the version is stored and the v2c form is shown iff it equals `"SNMPv2c"`, the v3 form otherwise |
| ConfigFlow.WDEx2UltraConfigFlow.StepV2c | custom_components/wd_ex2_ultra/config_flow.py:132-171 | the step, with its errors dictionary, computes `V2cStepResult` |
| ConfigFlow.WDEx2UltraConfigFlow.StepV3 | custom_components/wd_ex2_ultra/config_flow.py:173-220 | the step, with its errors dictionary, computes `V3StepResult` |
| Sensor.UnitOf | custom_components/wd_ex2_ultra/sensor.py:102 | the empty unit becomes none; any other unit is kept |
| Sensor.DeviceClassOf | custom_components/wd_ex2_ultra/sensor.py:105-109 | the TEMPERATURE class exactly for `"temperature"`, none otherwise |
| Sensor.StateClassOf | custom_components/wd_ex2_ultra/sensor.py:111-117 | MEASUREMENT and TOTAL_INCREASING exactly for their names, none for anything else |
| Sensor.ScalarUniqueId | custom_components/wd_ex2_ultra/sensor.py:100 | the scalar unique id; its partner `ScalarUniqueIdInjective` states that it tells keys apart |
| Sensor.DiskUniqueId | custom_components/wd_ex2_ultra/sensor.py:157 | the disk unique id; its partner `DiskUniqueIdInjective` states that it tells (index, metric) pairs apart |
| Sensor.ScalarUniqueIdInjective | custom_components/wd_ex2_ultra/sensor.py:100 | within one entry, scalar ids are equal iff the keys are |
| Sensor.DiskUniqueIdInjective | custom_components/wd_ex2_ultra/sensor.py:157 | within one entry, disk ids of the four metrics are equal iff index and metric are |
| Sensor.ScalarDiskIdsDiffer | custom_components/wd_ex2_ultra/sensor.py:100-157 | a scalar id whose key does not start with `d` is never a disk id |
| Sensor.SensorKeysNotDisk | custom_components/wd_ex2_ultra/const.py:69-172 | no descriptor key starts with `d` |
| Sensor.ScalarIdsDistinct | custom_components/wd_ex2_ultra/sensor.py:100 | the scalar entities' ids are pairwise distinct and none is a disk id |
| Sensor.DiskIdsDistinct | custom_components/wd_ex2_ultra/sensor.py:157 | for disks with distinct indices, all disk entity ids are pairwise distinct |
| Sensor.DiskLabel | custom_components/wd_ex2_ultra/sensor.py:40-42 | the label starts with `Disk <idx>` and is exactly that iff the stripped model is empty |
| Sensor.DiskLabelModel | custom_components/wd_ex2_ultra/sensor.py:42 | a non-empty model is what stands between ` (` and `)` in the label |
| Sensor.ScalarEntity | custom_components/wd_ex2_ultra/sensor.py:90-117 | the entity of one descriptor; its partners `ScalarEntityClasses` and `ScalarIdsDistinct` state its classes and the distinctness of its id |
| Sensor.ScalarEntities | custom_components/wd_ex2_ultra/sensor.py:34-35 | one scalar entity per descriptor, in table order |
| Sensor.DiskGroup | custom_components/wd_ex2_ultra/sensor.py:43-82 | four disk entities for the disk's index, with the metrics temperature, capacity, model and vendor in that order, and their ids |
| Sensor.DiskGroupModelOnlyInLabels | custom_components/wd_ex2_ultra/sensor.py:63-82 | the model and vendor entities, and every id, do not depend on the disk's model |
| Sensor.ModelOf | custom_components/wd_ex2_ultra/sensor.py:41 | reading the model fails, with an `AttributeError`, iff the model is present and not a string; a read model has no surrounding whitespace |
| Sensor.RowsOf | custom_components/wd_ex2_ultra/sensor.py:179 | a missing `"_disks"` is the empty list, a list is itself, and any failure is a `TypeError` |
| Sensor.DisksOf | custom_components/wd_ex2_ultra/sensor.py:38 | before the first poll there are no disks |
| Sensor.DisksEntities | custom_components/wd_ex2_ultra/sensor.py:39-82 | the disk half of setup, one group of entities per disk in list order; stated by `DisksEntitiesOk`, `DisksEntitiesGroups` and `DisksEntitiesFirstError` |
| Sensor.DisksEntitiesOk | custom_components/wd_ex2_ultra/sensor.py:39-82 | disk entities are created iff every disk's model can be read and stripped |
| Sensor.DisksEntitiesGroups | custom_components/wd_ex2_ultra/sensor.py:39-82 | then there are four entities per disk, disk i's group at positions 4i..4i+3 |
| Sensor.DisksEntitiesFirstError | custom_components/wd_ex2_ultra/sensor.py:39-41 | otherwise setup fails with the error of the first disk whose model cannot be read |
| Sensor.SetupResult | custom_components/wd_ex2_ultra/sensor.py:23-84 | the outcome of setup; its partner `SetupShape` states when it succeeds and how its entity list is laid out |
| Sensor.SetupShape | custom_components/wd_ex2_ultra/sensor.py:31-84 | setup succeeds iff the disk list and every model can be read; it creates \|SENSORS\| + 4·\|disks\| entities, the scalar ones first |
| Sensor.SetupWithoutDisks | custom_components/wd_ex2_ultra/sensor.py:38 | with no data, or no `"_disks"`, exactly the \|SENSORS\| scalar entities are created |
| Sensor.SetupAfterPoll | custom_components/wd_ex2_ultra/sensor.py:38 | after a successful poll only the scalar entities are created, because the poll never stores `"_disks"` |
| Sensor.ScalarEntityClasses | custom_components/wd_ex2_ultra/sensor.py:100-117 | an entity has the TEMPERATURE class iff its key is `system_temperature`, and a state class iff its descriptor names one |
| Sensor.ScalarEntityList | custom_components/wd_ex2_ultra/sensor.py:34-35 | the first setup loop builds `ScalarEntities` |
| Sensor.SetupEntities | custom_components/wd_ex2_ultra/sensor.py:23-84 | the two setup loops compute `SetupResult`, stopping at the first disk that raises |
| Sensor.ErrorPersists | custom_components/wd_ex2_ultra/sensor.py:39-41 | once a disk's model raises, setup fails with that error however many disks follow |
| Sensor.ScalarNativeValue | custom_components/wd_ex2_ultra/sensor.py:130-134 | none before the first poll; otherwise the stored value for the key, or none when the key is absent |
| Sensor.ScalarValueAfterPoll | custom_components/wd_ex2_ultra/sensor.py:130-134 | after a poll, each scalar entity shows the normalised reply to its descriptor's OID |
| Sensor.FirstDisk | custom_components/wd_ex2_ultra/sensor.py:180-181 | the position of the first disk with the index, or none exactly when no disk has it |
| Sensor.DiskValue | custom_components/wd_ex2_ultra/sensor.py:175-183 | none before the first poll, none when no listed disk has the index, otherwise the metric of the first listed disk with the index, and only a `TypeError` for a disk list that cannot be iterated |
| Sensor.DiskNativeValue | custom_components/wd_ex2_ultra/sensor.py:175-183 | the early-return search computes `DiskValue`: none before a poll, the metric of the first matching disk, none when no disk matches |
| Sensor.DiskValueOfOwnDisk | custom_components/wd_ex2_ultra/sensor.py:180-182 | with distinct indices, a disk's sensors read that disk's own fields |
| Sensor.DiskValueAfterPoll | custom_components/wd_ex2_ultra/sensor.py:177-183 | after a poll every disk sensor shows none, because the poll stores no `"_disks"` |

## Left out

- The SNMP library (pysnmp) and the network are left out. Engine creation,
  `getCmd`, the UDP target and the rendering `str(var_binds[0][1])` are the
  `Env` parameter: a flag, a host predicate and a response function. A poll
  therefore sees one fixed reply per request and no timing effects. The
  error index is unused here, as in the code.
- The Home Assistant framework is left out: config-entry plumbing,
  `async_show_form` and its schemas, coordinator subscription, executor jobs
  and `async`/`await`. The schemas' `vol.In` checks of the choices are not
  modelled, so the steps accept any value a form could carry. A form result
  is a `FlowResult` value.
- `device_info` of both entity classes is left out. It is framework metadata
  built from the entry's host, with no logic of its own.
- `__init__.py` is not part of this model. It holds the coordinator glue,
  which is outside the core.
- Logging calls are left out.
- Entities are values (`Sensor.Entity`), not objects. Their constructors
  only set attributes once, and the coordinator link is not modelled.
- `Strings.ParseInt` and `Strings.ParseFloat` accept only decimal literals:
  an optional sign, ASCII digits and an optional point, with surrounding
  whitespace. Python's `int()` and `float()` also accept exponents,
  `inf`/`nan`, underscores and non-ASCII digits. Those inputs are read here
  as failures.
- SnmpHelper.ParseWdTemperature: the regular expression's `\d` is taken as
  an ASCII digit, whereas Python also matches other Unicode decimal digits.
  The `isinstance(raw, str)` check is not modelled, because the reading is
  always a string by construction.
- SnmpHelper.TicksToTenths: the rounding is exact round-half-even on the
  rational n/100. Python rounds the binary float nearest to n/100, so for
  some ties the float lies just off the tie and rounds the other way.
- SnmpHelper.UptimeValue: the seconds value is a real, not an IEEE double,
  so very large tick counts carry no precision loss. Python's
  `OverflowError` for readings beyond the float range (more than about 310
  digits) is not modelled either. `int(raw) / 100` raises it at
  snmp_helper.py:193, the handler there catches only `ValueError` and
  `TypeError`, so it aborts the whole poll; the model stores a number and
  the poll succeeds.
- A `float` result is modelled as a real, and `float()` of a very long digit
  string as its exact value.
- The descriptor dictionaries become `Const.SensorDef` records that always
  have their fields. A descriptor without `"key"` or `"oid"` cannot be
  expressed.
- A disk record always has its `"index"`, so the `KeyError` of
  `disk["index"]` cannot be expressed. Disk records are `Values.DiskRow`,
  and a list under `"_disks"` whose elements are not dictionaries cannot be
  expressed either. The index is a string in the model. In the source it can
  be any value, which the f-strings render and `==` compares.
- Table walking, disk and volume inventory, locale-aware number parsing,
  the `kb_to_mib` conversion and a computed `ram_used` are not modelled.
  The integration's code does not implement any of them: numbers are read
  with Python's `float()`, and a reading it rejects is stored as the raw
  string. The poll ignores
  `transform`, which `SnmpHelper.CollectIgnoresOtherFields` states, and it
  never stores `"_disks"`, which `SnmpHelper.FetchSensorTable` states.
- `SENSORS` entries' names, units and icons are carried as data. Only the
  properties in the table above are proved about them.
