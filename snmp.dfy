/**
 * What the integration sees of the SNMP library and of the network: the
 * authentication objects it builds, the UDP target, and the reply to one GET.
 * The library and the agent are not modelled; an `Env` stands for both.
 */
module Snmp {
  import opened Values

  /** USM authentication primitives (section 6 and 7 of RFC 3414). */
  datatype AuthProtocol = HmacMd5 | HmacSha

  /** USM privacy primitives: CBC-DES (section 8 of RFC 3414) and AES-CFB-128 (RFC 3826). */
  datatype PrivProtocol = CbcDes | AesCfb128

  /**
   * Credentials of one request: a community string (message processing
   * model 1, which is SNMPv2c) or a USM user.
   */
  datatype AuthData =
    | CommunityData(community: ConfigValue, mpModel: nat)
    | UsmUserData(userName: ConfigValue, authKey: ConfigValue, privKey: ConfigValue,
                  authProtocol: AuthProtocol, privProtocol: PrivProtocol)

  /** The UDP endpoint of the agent, with the per-request timeout (seconds) and retry count. */
  datatype Transport = UdpTransportTarget(host: string, port: nat, timeout: nat, retries: nat)

  /**
   * The outcome of one GET: the call raised, or it returned an error
   * indication and an error status (each either set or not) and the
   * rendered value of the first variable binding.
   */
  datatype Response = Raised | Reply(errorIndication: bool, errorStatus: bool, raw: string)

  /**
   * The environment of one call: whether the SNMP library can be imported,
   * which host names a UDP target can be built for, and the agent's reply
   * to a GET of an OID with given credentials over a given transport.
   */
  datatype Env = Env(
    libraryPresent: bool,
    resolves: string -> bool,
    get: (AuthData, Transport, string) -> Response)

  const SNMP_PORT: nat := 161
  const REQUEST_TIMEOUT: nat := 5
  const REQUEST_RETRIES: nat := 1

  /** `UdpTransportTarget((host, 161), timeout=5, retries=1)`. */
  function Target(host: string): Transport {
    UdpTransportTarget(host, SNMP_PORT, REQUEST_TIMEOUT, REQUEST_RETRIES)
  }
}
