/**
 * The setup flow: the user picks SNMPv2c or SNMPv3, fills in the matching
 * form, the flow tests the connection with its own copy of the credential
 * logic and either records an error code or creates the entry.
 */
module ConfigFlow {
  import opened Wrappers
  import opened Strings
  import opened Values
  import opened Snmp
  import opened Const
  import SnmpHelper

  /** What the flow's connection test ends in: success, one of its two errors, or another exception. */
  datatype Validation = Valid | CannotConnect | InvalidAuth | Unexpected(err: PyError)

  /** The flow's own selection of credentials, written out as the flow writes it. */
  function TestAuthData(data: ConfigData): (r: Result<AuthData, PyError>)
    ensures r.Err? ==> r.error.KeyError? && r.error.key !in data
  {
    if GetOr(data, CONF_SNMP_VERSION, Str(SNMP_VERSION_V2C)) == Str(SNMP_VERSION_V2C) then
      Ok(CommunityData(GetOr(data, CONF_COMMUNITY, Str("public")), 1))
    else if CONF_USERNAME !in data then Err(KeyError(CONF_USERNAME))
    else if CONF_AUTH_PASSWORD !in data then Err(KeyError(CONF_AUTH_PASSWORD))
    else if CONF_PRIV_PASSWORD !in data then Err(KeyError(CONF_PRIV_PASSWORD))
    else if CONF_AUTH_PROTOCOL !in data then Err(KeyError(CONF_AUTH_PROTOCOL))
    else if CONF_PRIV_PROTOCOL !in data then Err(KeyError(CONF_PRIV_PROTOCOL))
    else
      var auth, priv := data[CONF_AUTH_PROTOCOL], data[CONF_PRIV_PROTOCOL];
      Ok(UsmUserData(
        data[CONF_USERNAME], data[CONF_AUTH_PASSWORD], data[CONF_PRIV_PASSWORD],
        if auth == Str("MD5") then HmacMd5 else if auth == Str("SHA") then HmacSha else HmacMd5,
        if priv == Str("DES") then CbcDes else if priv == Str("AES") then AesCfb128 else CbcDes))
  }

  /** The flow's copy agrees with the helper's, key order of the `KeyError` included. */
  lemma TestAuthDataAgrees(data: ConfigData)
    ensures TestAuthData(data) == SnmpHelper.BuildAuthData(data, true)
  {
    SnmpHelper.UsmKeyOrder(data);
  }

  /**
   * The flow's connection test: the library import, the host lookup, the
   * credentials, the UDP target for the host as entered (not sanitized), and
   * a GET of sysUpTime.0; an error indication wins over an error status.
   */
  function TestSnmp(data: ConfigData, env: Env): (v: Validation)
    ensures !v.Unexpected? ==> env.libraryPresent && CONF_HOST in data && data[CONF_HOST].Str? && env.resolves(data[CONF_HOST].s)
  {
    if !env.libraryPresent then Unexpected(ImportError)
    else if CONF_HOST !in data then Unexpected(KeyError(CONF_HOST))
    else
      match TestAuthData(data)
      case Err(e) => Unexpected(e)
      case Ok(auth) =>
        var host := data[CONF_HOST];
        if !host.Str? || !env.resolves(host.s) then Unexpected(TransportError)
        else match env.get(auth, Target(host.s), SYS_UPTIME_OID)
          case Raised => Unexpected(RequestError)
          case Reply(errorIndication, errorStatus, _) =>
            if errorIndication then CannotConnect
            else if errorStatus then InvalidAuth
            else Valid
  }

  /**
   * Every exception before the reply arrives escapes the flow's test with its
   * own type, and the form shows `unknown` for it: the missing library, no
   * host, a missing credential, a host that is not a string or does not
   * resolve as entered.
   */
  lemma TestSnmpFailsBeforeReply(data: ConfigData, env: Env)
    ensures !env.libraryPresent ==> TestSnmp(data, env) == Unexpected(ImportError)
    ensures env.libraryPresent && CONF_HOST !in data ==> TestSnmp(data, env) == Unexpected(KeyError(CONF_HOST))
    ensures env.libraryPresent && CONF_HOST in data && TestAuthData(data).Err? ==>
      TestSnmp(data, env) == Unexpected(TestAuthData(data).error)
    ensures env.libraryPresent && CONF_HOST in data && TestAuthData(data).Ok? && !data[CONF_HOST].Str? ==>
      TestSnmp(data, env) == Unexpected(TransportError)
    ensures env.libraryPresent && CONF_HOST in data && TestAuthData(data).Ok? && data[CONF_HOST].Str? && !env.resolves(data[CONF_HOST].s) ==>
      TestSnmp(data, env) == Unexpected(TransportError)
    ensures TestSnmp(data, env).Unexpected? ==> ErrorCode(TestSnmp(data, env)) == Some("unknown")
  {
  }

  /**
   * Once the GET is sent: a request that raises is an unexpected error, an
   * error indication is `cannot_connect`, then an error status is
   * `invalid_auth`, and a clean reply validates the input.
   */
  lemma TestSnmpReplyOutcome(data: ConfigData, env: Env, auth: AuthData)
    requires env.libraryPresent && CONF_HOST in data && data[CONF_HOST].Str? && env.resolves(data[CONF_HOST].s)
    requires TestAuthData(data) == Ok(auth)
    ensures var resp := env.get(auth, Target(data[CONF_HOST].s), SYS_UPTIME_OID);
      && (TestSnmp(data, env) == Unexpected(RequestError) <==> resp.Raised?)
      && (ErrorCode(TestSnmp(data, env)) == Some("cannot_connect") <==> resp.Reply? && resp.errorIndication)
      && (ErrorCode(TestSnmp(data, env)) == Some("invalid_auth") <==> resp.Reply? && !resp.errorIndication && resp.errorStatus)
      && (TestSnmp(data, env) == Valid <==> resp.Reply? && !resp.errorIndication && !resp.errorStatus)
  {
  }

  /**
   * For a host that needs no sanitizing the flow's test and the helper's
   * test agree; every exception the flow lets through is a failure to
   * connect for the helper.
   */
  lemma TestSnmpAgreesWithHelper(data: ConfigData, env: Env)
    requires env.libraryPresent && CONF_HOST in data && data[CONF_HOST].Str?
    requires SnmpHelper.SanitizeHost(data[CONF_HOST].s) == data[CONF_HOST].s
    ensures TestSnmp(data, env) == Valid <==> SnmpHelper.TestSnmpConnection(data, env) == SnmpHelper.Connected
    ensures TestSnmp(data, env) == InvalidAuth <==> SnmpHelper.TestSnmpConnection(data, env) == SnmpHelper.InvalidAuth
    ensures TestSnmp(data, env) == CannotConnect || TestSnmp(data, env).Unexpected? <==>
      SnmpHelper.TestSnmpConnection(data, env) == SnmpHelper.CannotConnect
  {
    TestAuthDataAgrees(data);
  }

  /**
   * The flow does not sanitize: a host entered with a scheme (`"http://nas"`,
   * say) is looked up as it stands, so where only the sanitized name
   * resolves the flow fails and the helper's test succeeds.
   */
  lemma UnsanitizedHostRejected(data: ConfigData, env: Env, auth: AuthData)
    requires env.libraryPresent && CONF_HOST in data && data[CONF_HOST].Str?
    requires TestAuthData(data) == Ok(auth)
    requires !env.resolves(data[CONF_HOST].s) && env.resolves(SnmpHelper.SanitizeHost(data[CONF_HOST].s))
    requires env.get(auth, Target(SnmpHelper.SanitizeHost(data[CONF_HOST].s)), SYS_UPTIME_OID) == Reply(false, false, "0")
    ensures TestSnmp(data, env) == Unexpected(TransportError)
    ensures SnmpHelper.TestSnmpConnection(data, env) == SnmpHelper.Connected
  {
    TestAuthDataAgrees(data);
  }

  /** The error code a form shows for a failed test. */
  function ErrorCode(v: Validation): (code: Option<string>)
    ensures code.None? <==> v == Valid
    ensures code == Some("cannot_connect") <==> v == CannotConnect
    ensures code == Some("invalid_auth") <==> v == InvalidAuth
    ensures code == Some("unknown") <==> v.Unexpected?
  {
    match v
    case Valid => None
    case CannotConnect => Some("cannot_connect")
    case InvalidAuth => Some("invalid_auth")
    case Unexpected(_) => Some("unknown")
  }

  /** What a step hands back to the framework: a form to show, an entry to create, or an exception. */
  datatype FlowResult =
    | ShowForm(stepId: string, errors: map<string, string>)
    | CreateEntry(title: string, data: ConfigData)
    | Raises(err: PyError)

  /** Python's `f"{v}"` for a configuration value. */
  function Render(v: ConfigValue): string {
    match v
    case Str(s) => s
    case Int(i) => IntToString(i)
  }

  /** The title of a created entry. */
  function EntryTitle(host: ConfigValue): (t: string)
    ensures t == "WD EX2 Ultra (" + Render(host) + ")"
    ensures host.Str? ==> Contains(t, host.s)
  {
    var t := "WD EX2 Ultra (" + Render(host) + ")";
    assert StartsWith(t[14..], Render(host));
    t
  }

  const V2C_KEYS := {CONF_SNMP_VERSION, CONF_HOST, CONF_COMMUNITY, CONF_SCAN_INTERVAL}

  /** The entry data of the SNMPv2c form; the host is required, the rest have defaults. */
  function V2cEntryData(input: ConfigData): (r: Result<ConfigData, PyError>)
    ensures r.Err? <==> CONF_HOST !in input
    ensures r.Err? ==> r.error == KeyError(CONF_HOST)
    ensures r.Ok? ==> r.value.Keys == V2C_KEYS
    ensures r.Ok? ==> r.value[CONF_SNMP_VERSION] == Str(SNMP_VERSION_V2C) && r.value[CONF_HOST] == input[CONF_HOST]
    ensures r.Ok? ==> r.value[CONF_COMMUNITY] == (if CONF_COMMUNITY in input then input[CONF_COMMUNITY] else Str("public"))
    ensures r.Ok? ==>
      r.value[CONF_SCAN_INTERVAL] == if CONF_SCAN_INTERVAL in input then input[CONF_SCAN_INTERVAL] else Int(DEFAULT_SCAN_INTERVAL)
  {
    if CONF_HOST !in input then Err(KeyError(CONF_HOST))
    else Ok(map[
      CONF_SNMP_VERSION := Str(SNMP_VERSION_V2C),
      CONF_HOST := input[CONF_HOST],
      CONF_COMMUNITY := GetOr(input, CONF_COMMUNITY, Str("public")),
      CONF_SCAN_INTERVAL := GetOr(input, CONF_SCAN_INTERVAL, Int(DEFAULT_SCAN_INTERVAL))])
  }

  /** The SNMPv3 form's fields that the entry copies, in the order the data is built. */
  const V3_FIELDS := [CONF_HOST, CONF_USERNAME, CONF_AUTH_PROTOCOL, CONF_AUTH_PASSWORD, CONF_PRIV_PROTOCOL, CONF_PRIV_PASSWORD]

  const V3_KEYS := {CONF_SNMP_VERSION, CONF_HOST, CONF_USERNAME, CONF_AUTH_PROTOCOL, CONF_AUTH_PASSWORD,
                    CONF_PRIV_PROTOCOL, CONF_PRIV_PASSWORD, CONF_SCAN_INTERVAL}

  /** The entry data of the SNMPv3 form: the six fields copied as entered, the version, and the interval. */
  function V3EntryData(input: ConfigData): (r: Result<ConfigData, PyError>)
    ensures r.Err? <==> exists i :: 0 <= i < |V3_FIELDS| && V3_FIELDS[i] !in input
    ensures r.Err? ==> r.error.KeyError? && r.error.key in V3_FIELDS && r.error.key !in input
    ensures r.Ok? ==> r.value.Keys == V3_KEYS && r.value[CONF_SNMP_VERSION] == Str(SNMP_VERSION_V3)
    ensures r.Ok? ==> forall i :: 0 <= i < |V3_FIELDS| ==> V3_FIELDS[i] in input && r.value[V3_FIELDS[i]] == input[V3_FIELDS[i]]
    ensures r.Ok? ==>
      r.value[CONF_SCAN_INTERVAL] == if CONF_SCAN_INTERVAL in input then input[CONF_SCAN_INTERVAL] else Int(DEFAULT_SCAN_INTERVAL)
  {
    match SnmpHelper.FirstMissing(input, V3_FIELDS)
    case Some(k) => Err(KeyError(k))
    case None =>
      Ok(map[
        CONF_SNMP_VERSION := Str(SNMP_VERSION_V3),
        CONF_HOST := input[V3_FIELDS[0]],
        CONF_USERNAME := input[V3_FIELDS[1]],
        CONF_AUTH_PROTOCOL := input[V3_FIELDS[2]],
        CONF_AUTH_PASSWORD := input[V3_FIELDS[3]],
        CONF_PRIV_PROTOCOL := input[V3_FIELDS[4]],
        CONF_PRIV_PASSWORD := input[V3_FIELDS[5]],
        CONF_SCAN_INTERVAL := GetOr(input, CONF_SCAN_INTERVAL, Int(DEFAULT_SCAN_INTERVAL))])
  }

  /** A missing host is the first thing the SNMPv3 step trips over. */
  lemma V3HostFirst(input: ConfigData)
    requires CONF_HOST !in input
    ensures V3EntryData(input) == Err(KeyError(CONF_HOST))
  {
  }

  /** What a credentials step returns for a submitted (or absent) form. */
  function StepResult(stepId: string, entry: Result<ConfigData, PyError>, env: Env): FlowResult
    requires entry.Ok? ==> CONF_HOST in entry.value
  {
    match entry
    case Err(e) => Raises(e)
    case Ok(data) =>
      var v := TestSnmp(data, env);
      if v == Valid then CreateEntry(EntryTitle(data[CONF_HOST]), data)
      else ShowForm(stepId, map["base" := ErrorCode(v).value])
  }

  function V2cStepResult(userInput: Option<ConfigData>, env: Env): FlowResult {
    if userInput.None? then ShowForm("v2c", map[]) else StepResult("v2c", V2cEntryData(userInput.value), env)
  }

  function V3StepResult(userInput: Option<ConfigData>, env: Env): FlowResult {
    if userInput.None? then ShowForm("v3", map[]) else StepResult("v3", V3EntryData(userInput.value), env)
  }

  /**
   * A submitted step either raises on a missing field, shows its own form
   * again with exactly one error under `"base"`, or creates an entry whose
   * data passed the test and whose title names the host.
   */
  lemma StepOutcomes(stepId: string, entry: Result<ConfigData, PyError>, env: Env)
    requires entry.Ok? ==> CONF_HOST in entry.value
    ensures var r := StepResult(stepId, entry, env);
      (r.Raises? <==> entry.Err?) &&
      (r.CreateEntry? <==> entry.Ok? && TestSnmp(entry.value, env) == Valid) &&
      (r.CreateEntry? ==> r.data == entry.value && r.title == "WD EX2 Ultra (" + Render(entry.value[CONF_HOST]) + ")") &&
      (r.ShowForm? ==>
        r.stepId == stepId && r.errors.Keys == {"base"} && Some(r.errors["base"]) == ErrorCode(TestSnmp(entry.value, env)))
  {
  }

  /** An SNMPv2c entry gives the helper a community credential with the form's community. */
  lemma V2cEntryAuth(input: ConfigData)
    requires V2cEntryData(input).Ok?
    ensures SnmpHelper.BuildAuthData(V2cEntryData(input).value, true) ==
      Ok(CommunityData(GetOr(input, CONF_COMMUNITY, Str("public")), 1))
  {
  }

  /** An SNMPv3 entry gives the helper the USM user the form described. */
  lemma V3EntryAuth(input: ConfigData)
    requires V3EntryData(input).Ok?
    ensures SnmpHelper.BuildAuthData(V3EntryData(input).value, true) ==
      Ok(UsmUserData(input[CONF_USERNAME], input[CONF_AUTH_PASSWORD], input[CONF_PRIV_PASSWORD],
                     SnmpHelper.AuthProtocolFor(input[CONF_AUTH_PROTOCOL]),
                     SnmpHelper.PrivProtocolFor(input[CONF_PRIV_PROTOCOL])))
  {
    var data := V3EntryData(input).value;
    assert forall i :: 0 <= i < |V3_FIELDS| ==> V3_FIELDS[i] in input;
    assert data[CONF_USERNAME] == input[CONF_USERNAME] by { assert V3_FIELDS[1] == CONF_USERNAME; }
    assert SnmpHelper.VersionOf(data) != Str(SNMP_VERSION_V2C);
  }

  /** The setup flow of one user. */
  class WDEx2UltraConfigFlow {
    /** The host system and the network the tests run against. */
    const env: Env
    /** The version picked in the first step, once there is one. */
    var snmpVersion: Option<ConfigValue>

    constructor(env: Env)
      ensures this.env == env && snmpVersion == None
    {
      this.env := env;
      snmpVersion := None;
    }

    /** Step 1: pick the version, then show the credentials form for it. */
    method StepUser(userInput: Option<ConfigData>) returns (r: FlowResult)
      modifies this
      ensures userInput.None? ==> r == ShowForm("user", map[]) && snmpVersion == old(snmpVersion)
      ensures userInput.Some? && CONF_SNMP_VERSION !in userInput.value ==>
        r == Raises(KeyError(CONF_SNMP_VERSION)) && snmpVersion == old(snmpVersion)
      ensures userInput.Some? && CONF_SNMP_VERSION in userInput.value ==>
        snmpVersion == Some(userInput.value[CONF_SNMP_VERSION]) &&
        r == (if userInput.value[CONF_SNMP_VERSION] == Str(SNMP_VERSION_V2C) then ShowForm("v2c", map[])
              else ShowForm("v3", map[]))
    {
      if userInput.Some? {
        if CONF_SNMP_VERSION !in userInput.value {
          return Raises(KeyError(CONF_SNMP_VERSION));
        }
        snmpVersion := Some(userInput.value[CONF_SNMP_VERSION]);
        if snmpVersion == Some(Str(SNMP_VERSION_V2C)) {
          r := StepV2c(None);
          return;
        }
        r := StepV3(None);
        return;
      }
      return ShowForm("user", map[]);
    }

    /** Step 2a: the SNMPv2c credentials. */
    method StepV2c(userInput: Option<ConfigData>) returns (r: FlowResult)
      ensures r == V2cStepResult(userInput, env)
    {
      var errors: map<string, string> := map[];
      if userInput.Some? {
        var input := userInput.value;
        if CONF_HOST !in input {
          return Raises(KeyError(CONF_HOST));
        }
        var data := map[
          CONF_SNMP_VERSION := Str(SNMP_VERSION_V2C),
          CONF_HOST := input[CONF_HOST],
          CONF_COMMUNITY := GetOr(input, CONF_COMMUNITY, Str("public")),
          CONF_SCAN_INTERVAL := GetOr(input, CONF_SCAN_INTERVAL, Int(DEFAULT_SCAN_INTERVAL))];
        var outcome := TestSnmp(data, env);
        if outcome == CannotConnect {
          errors := errors["base" := "cannot_connect"];
        } else if outcome == InvalidAuth {
          errors := errors["base" := "invalid_auth"];
        } else if outcome.Unexpected? {
          errors := errors["base" := "unknown"];
        } else {
          return CreateEntry(EntryTitle(data[CONF_HOST]), data);
        }
      }
      return ShowForm("v2c", errors);
    }

    /** Step 2b: the SNMPv3 credentials. */
    method StepV3(userInput: Option<ConfigData>) returns (r: FlowResult)
      ensures r == V3StepResult(userInput, env)
    {
      var errors: map<string, string> := map[];
      if userInput.Some? {
        var input := userInput.value;
        var missing := SnmpHelper.FirstMissing(input, V3_FIELDS);
        if missing.Some? {
          return Raises(KeyError(missing.value));
        }
        assert forall i :: 0 <= i < |V3_FIELDS| ==> V3_FIELDS[i] in input;
        var data := map[
          CONF_SNMP_VERSION := Str(SNMP_VERSION_V3),
          CONF_HOST := input[V3_FIELDS[0]],
          CONF_USERNAME := input[V3_FIELDS[1]],
          CONF_AUTH_PROTOCOL := input[V3_FIELDS[2]],
          CONF_AUTH_PASSWORD := input[V3_FIELDS[3]],
          CONF_PRIV_PROTOCOL := input[V3_FIELDS[4]],
          CONF_PRIV_PASSWORD := input[V3_FIELDS[5]],
          CONF_SCAN_INTERVAL := GetOr(input, CONF_SCAN_INTERVAL, Int(DEFAULT_SCAN_INTERVAL))];
        var outcome := TestSnmp(data, env);
        if outcome == CannotConnect {
          errors := errors["base" := "cannot_connect"];
        } else if outcome == InvalidAuth {
          errors := errors["base" := "invalid_auth"];
        } else if outcome.Unexpected? {
          errors := errors["base" := "unknown"];
        } else {
          return CreateEntry(EntryTitle(data[CONF_HOST]), data);
        }
      }
      return ShowForm("v3", errors);
    }
  }
}
