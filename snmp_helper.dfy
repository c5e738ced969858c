/**
 * The shared SNMP helpers: host clean-up, the WD temperature format, the
 * choice of credentials, the connection test and the per-poll fetch of every
 * scalar sensor with its normalisation by key.
 */
module SnmpHelper {
  import opened Wrappers
  import opened Strings
  import opened Values
  import opened Snmp
  import opened Const

  /** The sensor whose value is TimeTicks, hundredths of a second (section 7.1.8 of RFC 2578). */
  const UPTIME_KEY := "system_uptime"

  // ---------------------------------------------------------------- hosts

  /** The length of a leading `http://` or `https://` of `s`, or 0 when there is none. */
  function SchemeLength(s: string): (n: nat)
    ensures n == 0 || n == 7 || n == 8
    ensures n <= |s|
    ensures n == 7 <==> StartsWith(s, "http://")
    ensures n == 8 <==> StartsWith(s, "https://")
  {
    if StartsWith(s, "http://") then
      assert !StartsWith(s, "https://") by { assert s[..7][4] == ':'; }
      7
    else if StartsWith(s, "https://") then 8
    else 0
  }

  /**
   * The host with surrounding whitespace, one leading `http://` or `https://`
   * and every trailing `/` removed.
   */
  function SanitizeHost(host: string): (r: string)
    ensures r == [] || r[|r| - 1] != '/'
    ensures |r| <= |host|
  {
    var t := Strip(host);
    RStripChar(t[SchemeLength(t)..], '/')
  }

  /**
   * What is left is the stripped host after its scheme, less a run of
   * trailing slashes.
   */
  lemma SanitizeHostParts(host: string)
    ensures var r := SanitizeHost(host); var t := Strip(host); var n := SchemeLength(t);
      n + |r| <= |t| && t[n..n + |r|] == r && forall i :: n + |r| <= i < |t| ==> t[i] == '/'
  {
  }

  /** A host already free of whitespace, scheme and trailing slash is left as it is. */
  lemma SanitizeCleanHost(host: string)
    requires host == [] || (!IsSpace(host[0]) && !IsSpace(host[|host| - 1]) && host[|host| - 1] != '/')
    requires !StartsWith(host, "http://") && !StartsWith(host, "https://")
    ensures SanitizeHost(host) == host
  {
  }

  /** Removing every trailing `c` from `h` followed by a run of `c` gives back `h`, when `h` does not end in `c`. */
  lemma RStripCharRun(h: string, q: string, c: char)
    requires h == [] || h[|h| - 1] != c
    requires forall i :: 0 <= i < |q| ==> q[i] == c
    ensures RStripChar(h + q, c) == h
  {
    assert (h + q)[..|h|] == h;
  }

  /** A scheme followed by text that does not end in whitespace is kept whole by the strip, and then measured. */
  lemma SchemePrefix(scheme: string, rest: string)
    requires scheme == "http://" || scheme == "https://"
    requires rest == [] || !IsSpace(rest[|rest| - 1])
    ensures Strip(scheme + rest) == scheme + rest
    ensures SchemeLength(scheme + rest) == |scheme|
  {
    var t := scheme + rest;
    assert t[0] == 'h' && t[|scheme| - 1] == '/';
    assert t[|t| - 1] == if rest == [] then '/' else rest[|rest| - 1];
    assert t[..|scheme|] == scheme;
    if scheme == "https://" {
      assert t[..7][4] == 's';
    }
  }

  /** A host that the strip leaves alone, led by a scheme of length `|p|`, keeps what lies between scheme and slashes. */
  lemma SanitizeParts(p: string, h: string, slashes: string)
    requires Strip(p + h + slashes) == p + h + slashes && SchemeLength(p + h + slashes) == |p|
    requires h == [] || h[|h| - 1] != '/'
    requires forall i :: 0 <= i < |slashes| ==> slashes[i] == '/'
    ensures SanitizeHost(p + h + slashes) == h
  {
    assert (p + h + slashes)[|p|..] == h + slashes;
    RStripCharRun(h, slashes, '/');
  }

  /**
   * Exactly one scheme prefix is removed, with the trailing slashes: whatever
   * lies between them is kept, even a second scheme.
   */
  lemma SanitizeOneScheme(scheme: string, h: string, slashes: string)
    requires scheme == "http://" || scheme == "https://"
    requires h == [] || (!IsSpace(h[|h| - 1]) && h[|h| - 1] != '/')
    requires forall i :: 0 <= i < |slashes| ==> slashes[i] == '/'
    ensures SanitizeHost(scheme + h + slashes) == h
  {
    var rest := h + slashes;
    if slashes != [] {
      assert rest[|rest| - 1] == slashes[|slashes| - 1];
    } else {
      assert rest == h;
    }
    SchemePrefix(scheme, rest);
    assert scheme + rest == scheme + h + slashes;
    SanitizeParts(scheme, h, slashes);
  }

  /** `"https://nas.local/"` becomes `"nas.local"`. */
  lemma SanitizeExampleUrl(h: string)
    requires h == "nas.local"
    ensures SanitizeHost("https://" + h + "/") == h
  {
    assert h[|h| - 1] == 'l';
    SanitizeOneScheme("https://", h, "/");
  }

  /** `"http://nas"` becomes `"nas"`. */
  lemma SanitizeExampleScheme(h: string)
    requires h == "nas"
    ensures SanitizeHost("http://" + h) == h
  {
    assert h[|h| - 1] == 's';
    SanitizeOneScheme("http://", h, "");
    assert "http://" + h + "" == "http://" + h;
  }

  /** `"http://http://nas"` becomes `"http://nas"`: only the first scheme goes. */
  lemma SanitizeExampleDoubleScheme(h: string)
    requires h == "http://nas"
    ensures SanitizeHost("http://" + h) == h
  {
    assert h[|h| - 1] == 's';
    SanitizeOneScheme("http://", h, "");
    assert "http://" + h + "" == "http://" + h;
  }

  // ---------------------------------------------------------- temperature

  const CENTIGRADE := "Centigrade:"

  /** Whether the pattern `Centigrade:\s*(\d+)` matches at position `i` of `s`. */
  predicate CentigradeAt(s: string, i: nat) {
    i + |CENTIGRADE| <= |s| && s[i..i + |CENTIGRADE|] == CENTIGRADE &&
    var j := SpaceEnd(s, i + |CENTIGRADE|);
    j < |s| && IsDigit(s[j])
  }

  /** The digits captured by a match at `i`: the whole digit run after the whitespace. */
  function CentigradeDigits(s: string, i: nat): (d: string)
    requires CentigradeAt(s, i)
    ensures d != [] && AllDigits(d)
  {
    var j := SpaceEnd(s, i + |CENTIGRADE|);
    s[j..DigitEnd(s, j)]
  }

  /** The leftmost match at or after `from`, as a regular-expression search finds it. */
  function FindCentigrade(s: string, from: nat): (r: Option<nat>)
    requires from <= |s|
    ensures r.Some? ==> from <= r.value <= |s| && CentigradeAt(s, r.value)
    ensures r.Some? ==> forall i :: from <= i < r.value ==> !CentigradeAt(s, i)
    ensures r.None? ==> forall i :: from <= i <= |s| ==> !CentigradeAt(s, i)
    decreases |s| - from
  {
    if CentigradeAt(s, from) then Some(from)
    else if from == |s| then None
    else FindCentigrade(s, from + 1)
  }

  /** `float()` of a digit string is its value. */
  lemma DigitsParseAsFloat(d: string)
    requires d != [] && AllDigits(d)
    ensures ParseFloat(d) == Some(DigitsValue(d) as real)
  {
    NotSpace(d[0]);
    NotSpace(d[|d| - 1]);
    assert Strip(d) == d;
    assert SplitSign(d) == (false, d);
    IntParsesAsFloat(d);
  }

  /**
   * The WD temperature reading: the number after the leftmost `Centigrade:`
   * (and optional whitespace), else the whole string read as a number, else
   * nothing; the empty string gives nothing.
   */
  function ParseWdTemperature(raw: string): (r: Option<real>)
    ensures raw == [] ==> r.None?
    ensures FindCentigrade(raw, 0).Some? ==> r.Some? && 0.0 <= r.value && r.value == r.value.Floor as real
  {
    if raw == [] then None
    else match FindCentigrade(raw, 0)
      case Some(i) =>
        DigitsParseAsFloat(CentigradeDigits(raw, i));
        ParseFloat(CentigradeDigits(raw, i))
      case None => ParseFloat(raw)
  }

  /** The empty reading gives nothing. */
  lemma TemperatureEmpty()
    ensures ParseWdTemperature("") == None
  {
  }

  /** The leftmost match decides: its digit run is the value, whatever follows. */
  lemma TemperatureLeftmostMatch(raw: string, i: nat)
    requires i <= |raw| && CentigradeAt(raw, i)
    requires forall k :: 0 <= k < i ==> !CentigradeAt(raw, k)
    ensures ParseWdTemperature(raw) == Some(DigitsValue(CentigradeDigits(raw, i)) as real)
  {
    var r := FindCentigrade(raw, 0);
    assert r == Some(i);
    DigitsParseAsFloat(CentigradeDigits(raw, i));
  }

  /** Without a match the whole reading is parsed as a plain number, or gives nothing. */
  lemma TemperatureNoMatch(raw: string)
    requires forall i :: 0 <= i <= |raw| ==> !CentigradeAt(raw, i)
    ensures ParseWdTemperature(raw) == ParseFloat(raw)
  {
  }

  /** A string without `C` never matches the pattern. */
  lemma NoCentigrade(s: string)
    requires 'C' !in s
    ensures forall i :: 0 <= i <= |s| ==> !CentigradeAt(s, i)
  {
    forall i | 0 <= i <= |s|
      ensures !CentigradeAt(s, i)
    {
      if i + |CENTIGRADE| <= |s| {
        assert s[i..i + |CENTIGRADE|][0] == s[i] != 'C';
      }
    }
  }

  /** An integer reading, the fallback format, comes back as its value. */
  lemma PlainTemperature(n: int)
    ensures ParseWdTemperature(IntToString(n)) == Some(n as real)
  {
    var s := IntToString(n);
    assert forall k :: 0 <= k < |s| ==> IsDigit(s[k]) || s[k] == '-';
    NoCentigrade(s);
    TemperatureNoMatch(s);
    ParseIntToString(n);
  }

  lemma DigitsFortyEight()
    ensures DigitsValue("48") == 48
  {
    assert "48"[..1] == "4";
  }

  lemma TemperatureExamples(s: string)
    requires s == "Centigrade:48 \tFahrenheit:118"
    ensures ParseWdTemperature(s) == Some(48.0)
  {
    assert s[0..11] == CENTIGRADE;
    assert SpaceEnd(s, 11) == 11;
    assert s[11] == '4' && s[12] == '8' && s[13] == ' ';
    assert DigitEnd(s, 13) == 13;
    assert DigitEnd(s, 11) == 13;
    assert CentigradeAt(s, 0);
    assert CentigradeDigits(s, 0) == "48";
    DigitsFortyEight();
    TemperatureLeftmostMatch(s, 0);
  }

  // --------------------------------------------------------- credentials

  /** The authentication primitive named by the form; any other name falls back to HMAC-MD5. */
  function AuthProtocolFor(name: ConfigValue): (p: AuthProtocol)
    ensures p == HmacSha <==> name == Str("SHA")
  {
    if name == Str("MD5") then HmacMd5 else if name == Str("SHA") then HmacSha else HmacMd5
  }

  /** The privacy primitive named by the form; any other name falls back to CBC-DES. */
  function PrivProtocolFor(name: ConfigValue): (p: PrivProtocol)
    ensures p == AesCfb128 <==> name == Str("AES")
  {
    if name == Str("DES") then CbcDes else if name == Str("AES") then AesCfb128 else CbcDes
  }

  /** The entry keys a USM credential reads, in the order the call reads them. */
  const USM_KEYS := [CONF_USERNAME, CONF_AUTH_PASSWORD, CONF_PRIV_PASSWORD, CONF_AUTH_PROTOCOL, CONF_PRIV_PROTOCOL]

  /** The first of `keys` missing from `data`: the one whose lookup raises `KeyError`. */
  function FirstMissing(data: ConfigData, keys: seq<string>): (r: Option<string>)
    ensures r.None? <==> forall i :: 0 <= i < |keys| ==> keys[i] in data
    ensures r.Some? ==> r.value !in data
    ensures r.Some? ==> exists i :: 0 <= i < |keys| && keys[i] == r.value && forall j :: 0 <= j < i ==> keys[j] in data
  {
    if keys == [] then None
    else if keys[0] !in data then Some(keys[0])
    else match FirstMissing(data, keys[1..])
      case None => None
      case Some(k) =>
        assert forall j :: 1 <= j < |keys| ==> keys[j] == keys[1..][j - 1];
        Some(k)
  }

  /** The credential keys are read in order; the first one absent is the one reported. */
  lemma UsmKeyOrder(data: ConfigData)
    ensures FirstMissing(data, USM_KEYS) ==
      if CONF_USERNAME !in data then Some(CONF_USERNAME)
      else if CONF_AUTH_PASSWORD !in data then Some(CONF_AUTH_PASSWORD)
      else if CONF_PRIV_PASSWORD !in data then Some(CONF_PRIV_PASSWORD)
      else if CONF_AUTH_PROTOCOL !in data then Some(CONF_AUTH_PROTOCOL)
      else if CONF_PRIV_PROTOCOL !in data then Some(CONF_PRIV_PROTOCOL)
      else None
  {
    var k4 := [CONF_PRIV_PROTOCOL];
    var k3 := [CONF_AUTH_PROTOCOL] + k4;
    var k2 := [CONF_PRIV_PASSWORD] + k3;
    var k1 := [CONF_AUTH_PASSWORD] + k2;
    FirstMissingCons(data, CONF_PRIV_PROTOCOL, []);
    assert [CONF_PRIV_PROTOCOL] + [] == k4;
    FirstMissingCons(data, CONF_AUTH_PROTOCOL, k4);
    FirstMissingCons(data, CONF_PRIV_PASSWORD, k3);
    FirstMissingCons(data, CONF_AUTH_PASSWORD, k2);
    FirstMissingCons(data, CONF_USERNAME, k1);
    assert USM_KEYS == [CONF_USERNAME] + k1;
  }

  /** One step of the search: the head is looked up first. */
  lemma FirstMissingCons(data: ConfigData, k: string, rest: seq<string>)
    ensures FirstMissing(data, [k] + rest) == if k !in data then Some(k) else FirstMissing(data, rest)
  {
    assert ([k] + rest)[1..] == rest;
  }

  /** The version an entry asks for; an entry without one is SNMPv2c. */
  function VersionOf(data: ConfigData): (r: ConfigValue)
    ensures CONF_SNMP_VERSION in data ==> r == data[CONF_SNMP_VERSION]
    ensures CONF_SNMP_VERSION !in data ==> r == Str(SNMP_VERSION_V2C)
  {
    GetOr(data, CONF_SNMP_VERSION, Str(SNMP_VERSION_V2C))
  }

  /**
   * The credentials for an entry: a community (default `"public"`, message
   * processing model 1) for SNMPv2c, a USM user for any other version.
   */
  function BuildAuthData(data: ConfigData, libraryPresent: bool): (r: Result<AuthData, PyError>)
    ensures !libraryPresent ==> r == Err(SnmpLibraryMissing)
    ensures libraryPresent && VersionOf(data) == Str(SNMP_VERSION_V2C) ==>
      r == Ok(CommunityData(GetOr(data, CONF_COMMUNITY, Str("public")), 1))
    ensures libraryPresent && VersionOf(data) != Str(SNMP_VERSION_V2C) ==>
      (r.Ok? <==> forall i :: 0 <= i < |USM_KEYS| ==> USM_KEYS[i] in data)
    ensures r.Ok? && r.value.UsmUserData? ==>
      VersionOf(data) != Str(SNMP_VERSION_V2C) &&
      CONF_USERNAME in data && CONF_AUTH_PASSWORD in data && CONF_PRIV_PASSWORD in data &&
      CONF_AUTH_PROTOCOL in data && CONF_PRIV_PROTOCOL in data &&
      r.value == UsmUserData(data[CONF_USERNAME], data[CONF_AUTH_PASSWORD], data[CONF_PRIV_PASSWORD],
                             AuthProtocolFor(data[CONF_AUTH_PROTOCOL]), PrivProtocolFor(data[CONF_PRIV_PROTOCOL]))
    ensures r.Err? && libraryPresent ==> r.error.KeyError? && r.error.key in USM_KEYS && r.error.key !in data
  {
    if !libraryPresent then Err(SnmpLibraryMissing)
    else if VersionOf(data) == Str(SNMP_VERSION_V2C) then
      Ok(CommunityData(GetOr(data, CONF_COMMUNITY, Str("public")), 1))
    else match FirstMissing(data, USM_KEYS)
      case Some(k) => Err(KeyError(k))
      case None =>
        assert USM_KEYS[0] in data && USM_KEYS[1] in data && USM_KEYS[2] in data;
        assert USM_KEYS[3] in data && USM_KEYS[4] in data;
        Ok(UsmUserData(data[CONF_USERNAME], data[CONF_AUTH_PASSWORD], data[CONF_PRIV_PASSWORD],
                       AuthProtocolFor(data[CONF_AUTH_PROTOCOL]), PrivProtocolFor(data[CONF_PRIV_PROTOCOL])))
  }

  /** A USM entry that lacks its user name fails on it, before any other key is read. */
  lemma UsmUserNameFirst(data: ConfigData)
    requires VersionOf(data) != Str(SNMP_VERSION_V2C) && CONF_USERNAME !in data
    ensures BuildAuthData(data, true) == Err(KeyError(CONF_USERNAME))
  {
  }

  // --------------------------------------------------------------- uptime

  /**
   * `n` hundredths rounded to the nearest tenth, in tenths: the integer `t`
   * nearest to `n / 10`, the even one on a tie.
   */
  function TicksToTenths(n: int): (t: int)
    ensures -5 <= 10 * t - n <= 5
    ensures (10 * t - n == 5 || 10 * t - n == -5) ==> t % 2 == 0
  {
    var q, m := n / 10, n % 10;
    if m < 5 then q else if m > 5 then q + 1 else if q % 2 == 0 then q else q + 1
  }

  /** Only one integer meets the rounding contract, so it fixes the result. */
  lemma TicksToTenthsUnique(n: int, t: int)
    requires -5 <= 10 * t - n <= 5
    requires (10 * t - n == 5 || 10 * t - n == -5) ==> t % 2 == 0
    ensures t == TicksToTenths(n)
  {
    var u := TicksToTenths(n);
    assert -10 <= 10 * (t - u) <= 10;
  }

  /** The uptime reading in seconds, or the raw text when it is not an integer. */
  function UptimeValue(raw: string): (v: Value)
    ensures v.Num? <==> ParseInt(raw).Some?
    ensures v.Num? ==> -5.0 <= 100.0 * v.r - ParseInt(raw).value as real <= 5.0
    ensures !v.Num? ==> v == Text(raw)
  {
    match ParseInt(raw)
    case Some(n) => Num(TicksToTenths(n) as real / 10.0)
    case None => Text(raw)
  }

  // ------------------------------------------------------- normalisation

  /**
   * The value stored for a successful reply: the uptime in seconds, a
   * temperature through the WD parser, anything else as a number or as the
   * raw text.
   */
  function PostProcess(key: string, raw: string): (v: Value)
    ensures !v.Disks?
    ensures v.Null? ==> key != UPTIME_KEY && Contains(key, "temperature") && ParseWdTemperature(raw).None?
    ensures v.Text? ==> v == Text(raw) && !Contains(key, "temperature")
    ensures key == UPTIME_KEY ==> v == UptimeValue(raw)
    ensures key != UPTIME_KEY && Contains(key, "temperature") ==>
      (v.Num? <==> ParseWdTemperature(raw).Some?) && (v.Num? ==> ParseWdTemperature(raw) == Some(v.r))
    ensures key != UPTIME_KEY && !Contains(key, "temperature") ==>
      (v.Num? <==> ParseFloat(raw).Some?) && (v.Num? ==> ParseFloat(raw) == Some(v.r))
  {
    UptimeKeyNotTemperature();
    if key == UPTIME_KEY then UptimeValue(raw)
    else if Contains(key, "temperature") then
      match ParseWdTemperature(raw)
      case Some(t) => Num(t)
      case None => Null
    else
      match ParseFloat(raw)
      case Some(f) => Num(f)
      case None => Text(raw)
  }

  lemma UptimeKeyNotTemperature()
    ensures !Contains(UPTIME_KEY, "temperature")
  {
    MissingCharNotContained(UPTIME_KEY, "temperature", 'a');
  }

  /** What the agent renders for an integer object is stored as that integer; uptime becomes seconds. */
  lemma PostProcessInteger(key: string, n: int)
    ensures key == UPTIME_KEY ==> PostProcess(key, IntToString(n)) == Num(TicksToTenths(n) as real / 10.0)
    ensures key != UPTIME_KEY ==> PostProcess(key, IntToString(n)) == Num(n as real)
  {
    ParseIntToString(n);
    PlainTemperature(n);
  }

  /** The value stored for one request's outcome: nothing unless the reply is clean. */
  function ResponseValue(key: string, resp: Response): (v: Value)
    ensures (resp.Raised? || resp.errorIndication || resp.errorStatus) ==> v == Null
  {
    match resp
    case Raised => Null
    case Reply(errorIndication, errorStatus, raw) =>
      if errorIndication || errorStatus then Null else PostProcess(key, raw)
  }

  /** The value stored for a descriptor: the normalised reply to a GET of its OID. */
  function Outcome(env: Env, auth: AuthData, transport: Transport): SensorDef -> Value {
    (d: SensorDef) => ResponseValue(d.key, env.get(auth, transport, d.oid))
  }

  // --------------------------------------------------------------- fetch

  /** The result dictionary after storing `outcome(d)` under `d.key` for each descriptor `d` in turn. */
  function Collect(sensors: seq<SensorDef>, outcome: SensorDef -> Value): (m: map<string, Value>)
    ensures m.Keys == KeysOf(sensors)
  {
    if sensors == [] then map[]
    else
      var init, last := sensors[..|sensors| - 1], sensors[|sensors| - 1];
      assert KeysOf(sensors) == KeysOf(init) + {last.key} by {
        assert forall i :: 0 <= i < |init| ==> init[i] == sensors[i];
      }
      Collect(init, outcome)[last.key := outcome(last)]
  }

  /** Storing one more descriptor's outcome. */
  lemma CollectStep(sensors: seq<SensorDef>, outcome: SensorDef -> Value, i: nat)
    requires i < |sensors|
    ensures Collect(sensors[..i + 1], outcome) == Collect(sensors[..i], outcome)[sensors[i].key := outcome(sensors[i])]
  {
    assert sensors[..i + 1][..i] == sensors[..i];
  }

  /** The value under a key is the outcome of the last descriptor with that key. */
  lemma {:induction false} CollectAt(sensors: seq<SensorDef>, outcome: SensorDef -> Value, i: nat)
    requires i < |sensors|
    requires forall j :: i < j < |sensors| ==> sensors[j].key != sensors[i].key
    ensures Collect(sensors, outcome)[sensors[i].key] == outcome(sensors[i])
  {
    var init := sensors[..|sensors| - 1];
    if i < |sensors| - 1 {
      assert init[i] == sensors[i];
      CollectAt(init, outcome, i);
    }
  }

  /** With distinct keys every descriptor gets its own outcome, whatever happened to the others. */
  lemma CollectDistinct(sensors: seq<SensorDef>, outcome: SensorDef -> Value)
    requires DistinctKeys(sensors)
    ensures forall i :: 0 <= i < |sensors| ==> Collect(sensors, outcome)[sensors[i].key] == outcome(sensors[i])
  {
    forall i | 0 <= i < |sensors|
      ensures Collect(sensors, outcome)[sensors[i].key] == outcome(sensors[i])
    {
      CollectAt(sensors, outcome, i);
    }
  }

  /** Only keys and OIDs matter: names, units, icons, classes and transforms have no effect. */
  lemma {:induction false} CollectIgnoresOtherFields(s1: seq<SensorDef>, s2: seq<SensorDef>,
                                                     env: Env, auth: AuthData, transport: Transport)
    requires |s1| == |s2|
    requires forall i :: 0 <= i < |s1| ==> s1[i].key == s2[i].key && s1[i].oid == s2[i].oid
    ensures Collect(s1, Outcome(env, auth, transport)) == Collect(s2, Outcome(env, auth, transport))
  {
    if s1 != [] {
      CollectIgnoresOtherFields(s1[..|s1| - 1], s2[..|s2| - 1], env, auth, transport);
    }
  }

  /**
   * The outcome of one poll: the library, the host (present, and a string),
   * the credentials and the transport are checked in that order, and then
   * every descriptor is requested.
   */
  function FetchResult(data: ConfigData, sensors: seq<SensorDef>, env: Env): (r: Result<map<string, Value>, PyError>)
    ensures r.Err? <==>
      !env.libraryPresent || CONF_HOST !in data || !data[CONF_HOST].Str? || BuildAuthData(data, true).Err? ||
      !env.resolves(SanitizeHost(data[CONF_HOST].s))
    ensures r.Ok? ==> r.value.Keys == KeysOf(sensors)
  {
    if !env.libraryPresent then Err(SnmpLibraryMissing)
    else if CONF_HOST !in data then Err(KeyError(CONF_HOST))
    else if !data[CONF_HOST].Str? then Err(AttributeError)
    else
      var host := SanitizeHost(data[CONF_HOST].s);
      match BuildAuthData(data, true)
      case Err(e) => Err(e)
      case Ok(auth) =>
        if !env.resolves(host) then Err(TransportError)
        else Ok(Collect(sensors, Outcome(env, auth, Target(host))))
  }

  /** Fetches every descriptor's OID and normalises each reply by its key. */
  method FetchSnmpData(data: ConfigData, sensors: seq<SensorDef>, env: Env)
    returns (r: Result<map<string, Value>, PyError>)
    ensures r == FetchResult(data, sensors, env)
  {
    if !env.libraryPresent {
      return Err(SnmpLibraryMissing);
    }
    if CONF_HOST !in data {
      return Err(KeyError(CONF_HOST));
    }
    if !data[CONF_HOST].Str? {
      return Err(AttributeError);
    }
    var host := SanitizeHost(data[CONF_HOST].s);
    var authData := BuildAuthData(data, env.libraryPresent);
    if authData.Err? {
      return Err(authData.error);
    }
    var auth := authData.value;
    if !env.resolves(host) {
      return Err(TransportError);
    }
    var transport := Target(host);
    var result: map<string, Value> := map[];
    for i := 0 to |sensors|
      invariant result == Collect(sensors[..i], Outcome(env, auth, transport))
    {
      var oid := sensors[i].oid;
      var key := sensors[i].key;
      var resp := env.get(auth, transport, oid);
      CollectStep(sensors, Outcome(env, auth, transport), i);
      assert Outcome(env, auth, transport)(sensors[i]) == ResponseValue(key, resp);
      if resp.Raised? {
        result := result[key := Null];
        continue;
      }
      if resp.errorIndication || resp.errorStatus {
        result := result[key := Null];
      } else {
        result := result[key := PostProcess(key, resp.raw)];
      }
    }
    assert sensors[..|sensors|] == sensors;
    return Ok(result);
  }

  /** A successful poll has one entry per descriptor key and none other. */
  lemma FetchKeys(data: ConfigData, sensors: seq<SensorDef>, env: Env)
    requires FetchResult(data, sensors, env).Ok?
    ensures FetchResult(data, sensors, env).value.Keys == KeysOf(sensors)
  {
  }

  /** A poll fails or succeeds before any descriptor is requested, so the failure does not depend on them. */
  lemma FetchFailureIndependent(data: ConfigData, s1: seq<SensorDef>, s2: seq<SensorDef>, env1: Env, env2: Env)
    requires env1.libraryPresent == env2.libraryPresent && env1.resolves == env2.resolves
    ensures FetchResult(data, s1, env1).Err? <==> FetchResult(data, s2, env2).Err?
    ensures FetchResult(data, s1, env1).Err? ==> FetchResult(data, s1, env1) == FetchResult(data, s2, env2)
  {
  }

  /** A poll of the sensor table puts each sensor's own outcome under its key, and nothing under `"_disks"`. */
  lemma FetchSensorTable(data: ConfigData, env: Env)
    requires FetchResult(data, SENSORS, env).Ok?
    ensures var m := FetchResult(data, SENSORS, env).value;
      var auth := BuildAuthData(data, true).value;
      var transport := Target(SanitizeHost(data[CONF_HOST].s));
      "_disks" !in m &&
      forall i :: 0 <= i < |SENSORS| ==>
        m[SENSORS[i].key] == ResponseValue(SENSORS[i].key, env.get(auth, transport, SENSORS[i].oid))
  {
    SensorKeysDistinct();
    NoDisksKey();
    var auth := BuildAuthData(data, true).value;
    var transport := Target(SanitizeHost(data[CONF_HOST].s));
    assert FetchResult(data, SENSORS, env).value == Collect(SENSORS, Outcome(env, auth, transport));
    CollectDistinct(SENSORS, Outcome(env, auth, transport));
  }

  // ----------------------------------------------------- connection test

  datatype TestOutcome = Connected | CannotConnect | InvalidAuth | LibraryMissing

  /**
   * The connection test: a GET of sysUpTime.0 on the sanitized host. An
   * exception on the way, or an error indication, means the NAS cannot be
   * reached; an error status (looked at only after that) means the
   * credentials are wrong.
   */
  function TestSnmpConnection(data: ConfigData, env: Env): (r: TestOutcome)
    ensures r == LibraryMissing <==> !env.libraryPresent
  {
    if !env.libraryPresent then LibraryMissing
    else if CONF_HOST !in data || !data[CONF_HOST].Str? then CannotConnect
    else
      var host := SanitizeHost(data[CONF_HOST].s);
      match BuildAuthData(data, env.libraryPresent)
      case Err(e) => if e == SnmpLibraryMissing then LibraryMissing else CannotConnect
      case Ok(auth) =>
        if !env.resolves(host) then CannotConnect
        else match env.get(auth, Target(host), SYS_UPTIME_OID)
          case Raised => CannotConnect
          case Reply(errorIndication, errorStatus, _) =>
            if errorIndication then CannotConnect
            else if errorStatus then InvalidAuth
            else Connected
  }

  /** The test reads nothing but sysUpTime.0 on the sanitized host. */
  lemma TestReadsOnlyUptime(data: ConfigData, env1: Env, env2: Env)
    requires env1.libraryPresent == env2.libraryPresent && env1.resolves == env2.resolves
    requires CONF_HOST in data && data[CONF_HOST].Str?
    requires forall a :: env1.get(a, Target(SanitizeHost(data[CONF_HOST].s)), SYS_UPTIME_OID) ==
                         env2.get(a, Target(SanitizeHost(data[CONF_HOST].s)), SYS_UPTIME_OID)
    ensures TestSnmpConnection(data, env1) == TestSnmpConnection(data, env2)
  {
  }

  /**
   * Every exception raised before the reply arrives is a failure to connect:
   * no host, a host that is not a string, a missing credential, a host no
   * UDP target can be built for.
   */
  lemma TestFailsBeforeReply(data: ConfigData, env: Env)
    ensures env.libraryPresent && (CONF_HOST !in data || !data[CONF_HOST].Str?) ==> TestSnmpConnection(data, env) == CannotConnect
    ensures env.libraryPresent && CONF_HOST in data && data[CONF_HOST].Str? && BuildAuthData(data, true).Err? ==>
      TestSnmpConnection(data, env) == CannotConnect
    ensures env.libraryPresent && CONF_HOST in data && data[CONF_HOST].Str? && !env.resolves(SanitizeHost(data[CONF_HOST].s)) ==>
      TestSnmpConnection(data, env) == CannotConnect
  {
  }

  /**
   * Once the GET is sent, a request that raises or an error indication is a
   * failure to connect; otherwise an error status means wrong credentials,
   * and a clean reply means success.
   */
  lemma TestReplyOutcome(data: ConfigData, env: Env, auth: AuthData)
    requires env.libraryPresent && CONF_HOST in data && data[CONF_HOST].Str?
    requires BuildAuthData(data, true) == Ok(auth) && env.resolves(SanitizeHost(data[CONF_HOST].s))
    ensures var resp := env.get(auth, Target(SanitizeHost(data[CONF_HOST].s)), SYS_UPTIME_OID);
      && (TestSnmpConnection(data, env) == CannotConnect <==> resp.Raised? || resp.errorIndication)
      && (TestSnmpConnection(data, env) == InvalidAuth <==> resp.Reply? && !resp.errorIndication && resp.errorStatus)
      && (TestSnmpConnection(data, env) == Connected <==> resp.Reply? && !resp.errorIndication && !resp.errorStatus)
  {
  }

  /** An error indication means CannotConnect whatever the error status says. */
  lemma TestIndicationFirst(data: ConfigData, env: Env, auth: AuthData)
    requires env.libraryPresent && CONF_HOST in data && data[CONF_HOST].Str?
    requires BuildAuthData(data, true) == Ok(auth)
    requires var host := SanitizeHost(data[CONF_HOST].s);
      env.resolves(host) && env.get(auth, Target(host), SYS_UPTIME_OID).Reply? &&
      env.get(auth, Target(host), SYS_UPTIME_OID).errorIndication
    ensures TestSnmpConnection(data, env) == CannotConnect
  {
  }

  /**
   * When a poll of the sensor table succeeds, the test (against the same
   * agent) connects exactly when the poll got an uptime value, and wrong
   * credentials leave the uptime empty.
   */
  lemma TestAgreesWithFetch(data: ConfigData, env: Env)
    requires FetchResult(data, SENSORS, env).Ok?
    ensures TestSnmpConnection(data, env) == Connected <==> FetchResult(data, SENSORS, env).value[UPTIME_KEY] != Null
    ensures TestSnmpConnection(data, env) == InvalidAuth ==> FetchResult(data, SENSORS, env).value[UPTIME_KEY] == Null
  {
    FetchSensorTable(data, env);
    OneUptimeKey();
    var raw := env.get(BuildAuthData(data, true).value, Target(SanitizeHost(data[CONF_HOST].s)), SYS_UPTIME_OID);
    if raw.Reply? && !raw.errorIndication && !raw.errorStatus {
      assert UptimeValue(raw.raw) != Null;
    }
  }
}
