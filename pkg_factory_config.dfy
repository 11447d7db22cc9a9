/**
 * The newer configuration generation (pkg/factory/config.go). Its getters
 * read the Info, Configuration and Sbi sections without nil checks (the
 * validator marks them required), so those sections are plain fields here;
 * only the TLS section is optional. The module also holds the service URIs
 * built on the SBI URI and the NF service list registered at the NRF.
 */
module PkgFactory {
  import opened Common

  const DefaultTLSPemPath := "./config/TLS/nef.pem"
  const DefaultTLSKeyPath := "./config/TLS/nef.key"
  const ExpectedConfigVersion := "1.0.0"
  const SbiDefaultIPv4 := "127.0.0.5"
  const SbiDefaultPort := 8000
  const SbiDefaultScheme := "https"
  const DefaultNrfUri := "https://127.0.0.10:8000"
  const TraffInfluResUriPrefix := "/3gpp-traffic-influence/v1"
  const PfdMngResUriPrefix := "/3gpp-pfd-management/v1"
  const NefPfdMngResUriPrefix := "/nnef-pfdmanagement/v1"
  const NefOamResUriPrefix := "/nnef-oam/v1"

  const ServiceTraffInflu := "3gpp-traffic-influence"
  const ServicePfdMng := "3gpp-pfd-management"
  const ServiceNefPfd := "nnef-pfdmanagement"
  const ServiceNefOam := "nnef-oam"

  datatype Info = Info(version: string, description: string)

  datatype Tls = Tls(pem: string, key: string)

  datatype Sbi = Sbi(scheme: string, registerIPv4: string, bindingIPv4: string, port: int, tls: Option<Tls>)

  datatype Service = Service(serviceName: string, suppFeat: string)

  datatype Configuration = Configuration(sbi: Sbi, nrfUri: string, serviceList: seq<Service>)

  datatype Config = Config(info: Info, configuration: Configuration)

  // ---------------------------------------------------------------------------
  // Defaulting getters
  // ---------------------------------------------------------------------------

  function Version(c: Config): string
  {
    c.info.version
  }

  function SbiScheme(c: Config): (r: string)
    ensures r != ""
    ensures c.configuration.sbi.scheme != "" ==> r == c.configuration.sbi.scheme
  {
    if c.configuration.sbi.scheme != "" then c.configuration.sbi.scheme else SbiDefaultScheme
  }

  function SbiPort(c: Config): (r: int)
    ensures r != 0
    ensures c.configuration.sbi.port != 0 ==> r == c.configuration.sbi.port
  {
    if c.configuration.sbi.port != 0 then c.configuration.sbi.port else SbiDefaultPort
  }

  /** The bind IP; BindingIPv4 names an environment variable first (`env`, "" when unset). */
  function SbiBindingIP(c: Config, env: string -> string): (r: string)
    ensures r != ""
    ensures c.configuration.sbi.bindingIPv4 == "" ==> r == "0.0.0.0"
  {
    var name := c.configuration.sbi.bindingIPv4;
    if name == "" then "0.0.0.0"
    else if env(name) != "" then env(name)
    else name
  }

  function SbiBindingAddr(c: Config, env: string -> string): string
  {
    SbiBindingIP(c, env) + ":" + IntToString(SbiPort(c))
  }

  function SbiRegisterIP(c: Config): (r: string)
    ensures r != ""
    ensures c.configuration.sbi.registerIPv4 != "" ==> r == c.configuration.sbi.registerIPv4
  {
    if c.configuration.sbi.registerIPv4 != "" then c.configuration.sbi.registerIPv4 else SbiDefaultIPv4
  }

  function SbiRegisterAddr(c: Config): string
  {
    SbiRegisterIP(c) + ":" + IntToString(SbiPort(c))
  }

  function SbiUri(c: Config): string
  {
    SbiScheme(c) + "://" + SbiRegisterAddr(c)
  }

  function NrfUri(c: Config): (r: string)
    ensures r != ""
    ensures c.configuration.nrfUri != "" ==> r == c.configuration.nrfUri
  {
    if c.configuration.nrfUri != "" then c.configuration.nrfUri else DefaultNrfUri
  }

  /** nil (None) when no service is configured. */
  function ServiceList(c: Config): (r: Option<seq<Service>>)
    ensures r.None? <==> c.configuration.serviceList == []
    ensures r.Some? ==> r.value == c.configuration.serviceList
  {
    if |c.configuration.serviceList| > 0 then Some(c.configuration.serviceList) else None
  }

  function TLSPemPath(c: Config): (r: string)
    ensures c.configuration.sbi.tls.None? ==> r == DefaultTLSPemPath
  {
    if c.configuration.sbi.tls.Some? then c.configuration.sbi.tls.value.pem else DefaultTLSPemPath
  }

  function TLSKeyPath(c: Config): (r: string)
    ensures c.configuration.sbi.tls.None? ==> r == DefaultTLSKeyPath
  {
    if c.configuration.sbi.tls.Some? then c.configuration.sbi.tls.value.key else DefaultTLSKeyPath
  }

  /**
   * An Sbi section without scheme, register address or port yields
   * "https://127.0.0.5:8000" as the base of every service URI.
   */
  lemma DefaultSbiUri(c: Config)
    requires c.configuration.sbi.scheme == "" && c.configuration.sbi.registerIPv4 == "" && c.configuration.sbi.port == 0
    ensures SbiUri(c) == "https://127.0.0.5:8000"
  {
    Decimal8000();
    assert SbiRegisterAddr(c) == "127.0.0.5:8000";
    assert SbiScheme(c) + "://" == "https://";
  }

  /** The NRF URI falls back to "https://127.0.0.10:8000" exactly when none is configured. */
  lemma NrfUriDefault(c: Config)
    ensures NrfUri(c) == DefaultNrfUri <==> c.configuration.nrfUri == "" || c.configuration.nrfUri == DefaultNrfUri
  {
  }

  // ---------------------------------------------------------------------------
  // Service URIs
  // ---------------------------------------------------------------------------

  /** The base URI of one of the four services the NEF serves; "" for any other name. */
  function ServiceUri(c: Config, name: string): (r: string)
    ensures name !in {ServiceTraffInflu, ServicePfdMng, ServiceNefPfd, ServiceNefOam} <==> r == ""
    ensures name == ServiceTraffInflu ==> r == SbiUri(c) + TraffInfluResUriPrefix
    ensures name == ServicePfdMng ==> r == SbiUri(c) + PfdMngResUriPrefix
    ensures name == ServiceNefPfd ==> r == SbiUri(c) + NefPfdMngResUriPrefix
    ensures name == ServiceNefOam ==> r == SbiUri(c) + NefOamResUriPrefix
  {
    if name == ServiceTraffInflu then SbiUri(c) + TraffInfluResUriPrefix
    else if name == ServicePfdMng then SbiUri(c) + PfdMngResUriPrefix
    else if name == ServiceNefPfd then SbiUri(c) + NefPfdMngResUriPrefix
    else if name == ServiceNefOam then SbiUri(c) + NefOamResUriPrefix
    else ""
  }

  /** Every service URI starts with the SBI URI, so all four services share one origin. */
  lemma ServiceUrisShareSbiUri(c: Config, name: string)
    requires ServiceUri(c, name) != ""
    ensures |SbiUri(c)| < |ServiceUri(c, name)|
    ensures ServiceUri(c, name)[..|SbiUri(c)|] == SbiUri(c)
  {
  }

  // ---------------------------------------------------------------------------
  // Service list check and NF services
  // ---------------------------------------------------------------------------

  /** The error Configuration.validate reports for the entry at `index`. */
  function InvalidServiceError(index: nat, name: string): string
  {
    "Invalid serviceList[" + NatToString(index) + "]: " + name + ", should be nnef-pfdmanagement or nnef-oam"
  }

  predicate KnownService(s: Service)
  {
    s.serviceName == ServiceNefPfd || s.serviceName == ServiceNefOam
  }

  /** The serviceList scan of Configuration.validate, from entry `from` on. */
  function ValidateServiceList(list: seq<Service>, from: nat): (r: Option<string>)
    requires from <= |list|
    ensures r.None? <==> forall i :: from <= i < |list| ==> KnownService(list[i])
    ensures r.Some? ==> exists i :: (from <= i < |list| && !KnownService(list[i]) &&
      (forall j :: from <= j < i ==> KnownService(list[j])) &&
      r.value == InvalidServiceError(i, list[i].serviceName))
    decreases |list| - from
  {
    if from == |list| then None
    else if !KnownService(list[from]) then Some(InvalidServiceError(from, list[from].serviceName))
    else ValidateServiceList(list, from + 1)
  }

  /** The first element of strings.Split(s, "."): the text before the first dot. */
  function BeforeFirstDot(s: string): (r: string)
    ensures |r| <= |s| && r == s[..|r|]
    ensures forall i :: 0 <= i < |r| ==> r[i] != '.'
    ensures |r| < |s| ==> s[|r|] == '.'
  {
    if s == [] || s[0] == '.' then "" else [s[0]] + BeforeFirstDot(s[1..])
  }

  /** Go's int32(x): two's-complement truncation to 32 bits. */
  function ToInt32(x: int): (r: int)
    ensures -0x8000_0000 <= r < 0x8000_0000
    ensures -0x8000_0000 <= x < 0x8000_0000 ==> r == x
    ensures (r - x) % 0x1_0000_0000 == 0
  {
    (x + 0x8000_0000) % 0x1_0000_0000 - 0x8000_0000
  }

  datatype NfServiceVersion = NfServiceVersion(apiFullVersion: string, apiVersionInUri: string)

  datatype IpEndPoint = IpEndPoint(ipv4Address: string, transport: string, port: int)

  datatype NfService = NfService(
    serviceInstanceId: string,
    serviceName: string,
    versions: seq<NfServiceVersion>,
    scheme: string,
    fqdn: string,
    nfServiceStatus: string,
    apiPrefix: string,
    ipEndPoints: seq<IpEndPoint>,
    supportedFeatures: string)

  /** The NF service entry NFServices emits for the configured service at `index`. */
  function NfServiceOf(c: Config, index: nat, s: Service): NfService
  {
    NfService(
      NatToString(index),
      s.serviceName,
      [NfServiceVersion(Version(c), "v" + BeforeFirstDot(Version(c)))],
      SbiScheme(c),
      "",
      "REGISTERED",
      SbiUri(c),
      [IpEndPoint(SbiRegisterIP(c), "TCP", ToInt32(SbiPort(c)))],
      s.suppFeat)
  }

  function ConfiguredServices(c: Config): seq<Service>
  {
    if ServiceList(c).Some? then ServiceList(c).value else []
  }

  /** One registered NF service per configured service, in list order. */
  function NFServices(c: Config): (r: seq<NfService>)
    ensures |r| == |c.configuration.serviceList|
    ensures forall i :: 0 <= i < |r| ==>
      r[i].serviceName == c.configuration.serviceList[i].serviceName &&
      r[i].serviceInstanceId == NatToString(i) &&
      r[i].fqdn == "" && r[i].nfServiceStatus == "REGISTERED" && r[i].apiPrefix == SbiUri(c) &&
      r[i].ipEndPoints == [IpEndPoint(SbiRegisterIP(c), "TCP", ToInt32(SbiPort(c)))]
  {
    var list := ConfiguredServices(c);
    seq(|list|, i requires 0 <= i < |list| => NfServiceOf(c, i, list[i]))
  }

  /** The registered services carry pairwise distinct instance identifiers. */
  lemma NFServicesDistinctInstanceIds(c: Config)
    ensures forall i, j :: 0 <= i < j < |NFServices(c)| ==>
      NFServices(c)[i].serviceInstanceId != NFServices(c)[j].serviceInstanceId
  {
    forall i, j | 0 <= i < j < |NFServices(c)|
      ensures NFServices(c)[i].serviceInstanceId != NFServices(c)[j].serviceInstanceId
    {
      if NatToString(i) == NatToString(j) {
        NatToStringInjective(i, j);
      }
    }
  }

  /** A version "1.0.0" is announced as "v1" in URIs. */
  lemma MajorVersionInUri(c: Config)
    requires Version(c) == "1.0.0" && c.configuration.serviceList != []
    ensures NFServices(c)[0].versions[0].apiVersionInUri == "v1"
  {
    assert BeforeFirstDot("1.0.0") == "1" + BeforeFirstDot(".0.0");
  }
}
