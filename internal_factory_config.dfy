/**
 * The older configuration generation (internal/factory/config.go): the
 * decoded YAML tree with its optional sections, the getters that fall back to
 * built-in defaults when a section or a field is missing, the SBI URI the
 * handlers of that generation put into resource URIs, and the serviceList
 * check of Configuration.validate.
 */
module InternalFactory {
  import opened Common

  const DefaultIPv4 := "127.0.0.5"
  const DefaultPort := "8000"
  const DefaultPortInt := 8000
  const DefaultScheme := "https"
  const DefaultNrfUri := "https://127.0.0.10:8000"
  const TraffInfluResUriPrefix := "/3gpp-traffic-influence/v1"
  const PfdMngResUriPrefix := "/3gpp-pfd-management/v1"
  const NefPfdMngResUriPrefix := "/nnef-pfdmanagement/v1"
  const NefOamResUriPrefix := "/nnef-oam/v1"

  datatype Info = Info(version: string, description: string)

  datatype Sbi = Sbi(scheme: string, registerIPv4: string, bindingIPv4: string, port: int)

  datatype Service = Service(serviceName: string, suppFeat: string)

  /** Each pointer of the Go tree is an Option; an absent serviceList is the empty list. */
  datatype Configuration = Configuration(sbi: Option<Sbi>, nrfUri: string, serviceList: seq<Service>)

  datatype Config = Config(info: Option<Info>, configuration: Option<Configuration>)

  /** The Sbi section when both enclosing pointers are set. */
  predicate HasSbi(c: Config)
  {
    c.configuration.Some? && c.configuration.value.sbi.Some?
  }

  function GetVersion(c: Config): (r: string)
    ensures c.info.None? ==> r == ""
    ensures c.info.Some? ==> r == c.info.value.version
  {
    if c.info.Some? && c.info.value.version != "" then c.info.value.version else ""
  }

  function GetSbiScheme(c: Config): (r: string)
    ensures r != ""
    ensures HasSbi(c) && c.configuration.value.sbi.value.scheme != "" ==> r == c.configuration.value.sbi.value.scheme
    ensures !(HasSbi(c) && c.configuration.value.sbi.value.scheme != "") ==> r == DefaultScheme
  {
    if HasSbi(c) && c.configuration.value.sbi.value.scheme != "" then c.configuration.value.sbi.value.scheme
    else DefaultScheme
  }

  function GetSbiPort(c: Config): (r: int)
    ensures r != 0
    ensures HasSbi(c) && c.configuration.value.sbi.value.port != 0 ==> r == c.configuration.value.sbi.value.port
    ensures !(HasSbi(c) && c.configuration.value.sbi.value.port != 0) ==> r == DefaultPortInt
  {
    if HasSbi(c) && c.configuration.value.sbi.value.port != 0 then c.configuration.value.sbi.value.port
    else DefaultPortInt
  }

  /**
   * The address the server binds to. The BindingIPv4 field names an
   * environment variable first; `env` is that environment ("" when unset).
   */
  function GetSbiBindingAddr(c: Config, env: string -> string): (r: string)
    ensures !HasSbi(c) ==> r == "0.0.0.0:" + DefaultPort
    ensures HasSbi(c) ==>
      var sbi := c.configuration.value.sbi.value;
      var host := if sbi.bindingIPv4 == "" then "0.0.0.0"
                  else if env(sbi.bindingIPv4) != "" then env(sbi.bindingIPv4)
                  else sbi.bindingIPv4;
      r == host + ":" + IntToString(GetSbiPort(c))
  {
    PortDefaultText();
    if !HasSbi(c) then "0.0.0.0:" + DefaultPort
    else
      var sbi := c.configuration.value.sbi.value;
      var bindAddr :=
        if sbi.bindingIPv4 != "" then
          (if env(sbi.bindingIPv4) != "" then env(sbi.bindingIPv4) + ":" else sbi.bindingIPv4 + ":")
        else "0.0.0.0:";
      if sbi.port != 0 then bindAddr + IntToString(sbi.port) else bindAddr + DefaultPort
  }

  function GetSbiRegisterIP(c: Config): (r: string)
    ensures r != ""
    ensures HasSbi(c) && c.configuration.value.sbi.value.registerIPv4 != "" ==> r == c.configuration.value.sbi.value.registerIPv4
    ensures !(HasSbi(c) && c.configuration.value.sbi.value.registerIPv4 != "") ==> r == DefaultIPv4
  {
    if HasSbi(c) && c.configuration.value.sbi.value.registerIPv4 != "" then c.configuration.value.sbi.value.registerIPv4
    else DefaultIPv4
  }

  /**
   * The address registered at the NRF. Unlike the getters above, the Go code
   * reads Configuration.Sbi.Port without a nil check, so the Sbi section is
   * required.
   */
  function GetSbiRegisterAddr(c: Config): (r: string)
    requires HasSbi(c)
    ensures r == GetSbiRegisterIP(c) + ":" + IntToString(GetSbiPort(c))
  {
    PortDefaultText();
    var regAddr := GetSbiRegisterIP(c) + ":";
    if c.configuration.value.sbi.value.port != 0 then regAddr + IntToString(c.configuration.value.sbi.value.port)
    else regAddr + DefaultPort
  }

  /** The base of every resource URI the handlers of this generation build. */
  function GetSbiUri(c: Config): (r: string)
    requires HasSbi(c)
    ensures r == GetSbiScheme(c) + "://" + GetSbiRegisterIP(c) + ":" + IntToString(GetSbiPort(c))
  {
    GetSbiScheme(c) + "://" + GetSbiRegisterAddr(c)
  }

  function GetNrfUri(c: Config): (r: string)
    ensures r != ""
    ensures c.configuration.Some? && c.configuration.value.nrfUri != "" ==> r == c.configuration.value.nrfUri
    ensures !(c.configuration.Some? && c.configuration.value.nrfUri != "") ==> r == DefaultNrfUri
  {
    if c.configuration.Some? && c.configuration.value.nrfUri != "" then c.configuration.value.nrfUri
    else DefaultNrfUri
  }

  /** The configured services; nil (None) when the section or the list is missing or empty. */
  function GetServiceList(c: Config): (r: Option<seq<Service>>)
    ensures r.Some? ==> |r.value| > 0
    ensures r.None? <==> c.configuration.None? || c.configuration.value.serviceList == []
  {
    if c.configuration.Some? && |c.configuration.value.serviceList| > 0 then Some(c.configuration.value.serviceList)
    else None
  }

  /** The error Configuration.validate reports for the entry at `index`. */
  function InvalidServiceError(index: nat, name: string): string
  {
    "Invalid serviceList[" + NatToString(index) + "]: " + name + ", should be nnef-pfdmanagement."
  }

  /** The serviceList scan of Configuration.validate, from entry `from` on. */
  function ValidateServiceList(list: seq<Service>, from: nat): (r: Option<string>)
    requires from <= |list|
    ensures r.None? <==> forall i :: from <= i < |list| ==> list[i].serviceName == "nnef-pfdmanagement"
    ensures r.Some? ==> exists i :: (from <= i < |list| && list[i].serviceName != "nnef-pfdmanagement" &&
      (forall j :: from <= j < i ==> list[j].serviceName == "nnef-pfdmanagement") &&
      r.value == InvalidServiceError(i, list[i].serviceName))
    decreases |list| - from
  {
    if from == |list| then None
    else if list[from].serviceName != "nnef-pfdmanagement" then Some(InvalidServiceError(from, list[from].serviceName))
    else ValidateServiceList(list, from + 1)
  }

  /**
   * With no configuration section every getter falls back to its default,
   * and the default port of the binding address agrees with GetSbiPort's.
   */
  lemma DefaultsWithoutConfiguration(c: Config, env: string -> string)
    requires c.configuration.None?
    ensures GetSbiScheme(c) == "https" && GetSbiPort(c) == 8000
    ensures GetSbiRegisterIP(c) == "127.0.0.5" && GetNrfUri(c) == "https://127.0.0.10:8000"
    ensures GetSbiBindingAddr(c, env) == "0.0.0.0:" + IntToString(GetSbiPort(c))
    ensures GetServiceList(c) == None
  {
    PortDefaultText();
  }

  /** The textual default port is the decimal text of the numeric one. */
  lemma PortDefaultText()
    ensures IntToString(DefaultPortInt) == DefaultPort
  {
    Decimal8000();
  }

  /**
   * An Sbi section without scheme, address or port yields
   * "https://127.0.0.5:8000" as the base of every resource URI.
   */
  lemma DefaultSbiUri(c: Config)
    requires HasSbi(c)
    requires c.configuration.value.sbi.value.scheme == "" && c.configuration.value.sbi.value.registerIPv4 == ""
    requires c.configuration.value.sbi.value.port == 0
    ensures GetSbiUri(c) == "https://127.0.0.5:8000"
  {
    PortDefaultText();
    assert GetSbiScheme(c) + "://" == "https://";
    assert GetSbiRegisterIP(c) + ":" == "127.0.0.5:";
    assert "https://" + "127.0.0.5:" == "https://127.0.0.5:";
  }
}
