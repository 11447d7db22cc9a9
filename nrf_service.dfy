/**
 * The NRF consumer (internal/consumer/nrf_service.go): the NF profile the NEF
 * registers, the adoption of the instance identifier the NRF assigns, and
 * the derivation of a peer's service URI from the profiles a discovery
 * returns (3GPP TS 29.510, Nnrf_NFManagement and Nnrf_NFDiscovery).
 *
 * The HTTP exchanges are not modelled: a registration answer and a discovery
 * answer are parameters, and so is the URL parser applied to an API prefix
 * (Go's url.Parse), given as a function that yields the scheme and the host
 * or fails.
 */
module NrfService {
  import opened Common
  import opened Models
  import PkgFactory
  import opened NefContexts

  const UriSchemeHttp := "http"
  const UriSchemeHttps := "https"
  const NfTypeNef := "NEF"
  const NfStatusRegistered := "REGISTERED"
  const ServiceNamePcfPolicyAuthorization := "npcf-policyauthorization"
  const ServiceNameUdrDr := "nudr-dr"
  const ErrTemporaryRedirect := "SearchNFInstances err: Temporary Redirect"

  /** An NF profile as registered at, and discovered from, the NRF. */
  datatype NfProfile = NfProfile(
    nfInstanceId: string,
    nfType: string,
    nfStatus: string,
    fqdn: string,
    ipv4Addresses: seq<string>,
    nfServices: Option<seq<PkgFactory.NfService>>)

  /** url.Parse on an API prefix: the scheme and the host, or None when it fails. */
  type UrlParser = string -> Option<(string, string)>

  // ---------------------------------------------------------------------------
  // Registration
  // ---------------------------------------------------------------------------

  /**
   * buildNfProfile: the NEF's own profile under the given instance
   * identifier, REGISTERED, announcing the register address and one service
   * per configured service.
   */
  function BuildNfProfile(c: PkgFactory.Config, nfInstID: string): (r: NfProfile)
    ensures r.nfInstanceId == nfInstID && r.nfType == NfTypeNef && r.nfStatus == NfStatusRegistered
    ensures r.ipv4Addresses == [PkgFactory.SbiRegisterIP(c)] && r.fqdn == ""
    ensures r.nfServices.Some? && |r.nfServices.value| == |c.configuration.serviceList|
    ensures forall i :: 0 <= i < |r.nfServices.value| ==>
      r.nfServices.value[i].serviceName == c.configuration.serviceList[i].serviceName &&
      r.nfServices.value[i].nfServiceStatus == NfStatusRegistered
  {
    NfProfile(nfInstID, NfTypeNef, NfStatusRegistered, "", [PkgFactory.SbiRegisterIP(c)],
              Some(PkgFactory.NFServices(c)))
  }

  /**
   * One answer of the NRF to RegisterNFInstance: 200 (an update) ends the
   * loop, 201 (created) ends it after the instance identifier has become the
   * text after the last slash of the Location header, anything else is
   * retried. Returns whether the loop ends.
   */
  method AdoptRegistration(n: NefContext, status: int, location: string) returns (done: bool)
    modifies n`nfInstID
    ensures done <==> status == StatusOK || status == StatusCreated
    ensures status == StatusCreated ==> n.nfInstID == LastSegment(location) && NoSlash(n.nfInstID)
    ensures status != StatusCreated ==> n.nfInstID == old(n.nfInstID)
  {
    if status == StatusOK {
      return true;
    } else if status == StatusCreated {
      n.SetNfInstID(InstanceIdOf(location));
      return true;
    }
    done := false;
  }

  /**
   * The identifier adopted from a Location: the whole text when it has no
   * slash, and the identifier of a resource URI built as prefix/id.
   */
  function InstanceIdOf(location: string): (id: string)
    ensures NoSlash(id) && |id| <= |location| && id == location[|location| - |id|..]
    ensures NoSlash(location) ==> id == location
  {
    LastSegment(location)
  }

  /** The NRF's resource URI for an instance gives back that instance's identifier. */
  lemma InstanceIdOfResourceUri(prefix: string, id: string)
    requires NoSlash(id)
    ensures InstanceIdOf(prefix + "/" + id) == id
  {
    LastSegmentOfAppend(prefix, id);
  }

  // ---------------------------------------------------------------------------
  // Deriving a service URI
  // ---------------------------------------------------------------------------

  /**
   * getUriFromIpEndPoint: scheme://ip:port with an explicit port; with port 0
   * the scheme's default port (80 for http, 443 for https), and nothing for
   * any other scheme.
   */
  function EndpointUri(scheme: string, ipv4: string, port: int): (r: string)
    ensures r == "" <==> port == 0 && scheme != UriSchemeHttp && scheme != UriSchemeHttps
    ensures port != 0 ==> r == scheme + "://" + ipv4 + ":" + IntToString(port)
    ensures port == 0 && scheme == UriSchemeHttp ==> r == scheme + "://" + ipv4 + ":80"
    ensures port == 0 && scheme == UriSchemeHttps ==> r == scheme + "://" + ipv4 + ":443"
  {
    if port != 0 then scheme + "://" + ipv4 + ":" + IntToString(port)
    else if scheme == UriSchemeHttp then scheme + "://" + ipv4 + ":80"
    else if scheme == UriSchemeHttps then scheme + "://" + ipv4 + ":443"
    else ""
  }

  /** What one service of a profile contributes: a URI (possibly empty), or an API prefix that does not parse. */
  datatype Candidate = Uri(uri: string) | ParseFailure

  predicate Matches(svc: PkgFactory.NfService, name: string, status: string)
  {
    svc.serviceName == name && svc.nfServiceStatus == status
  }

  /**
   * The URI a matching service yields, by precedence: the service's FQDN,
   * else the profile's FQDN, else the scheme and host of the API prefix, else
   * the first IP endpoint, with its own IPv4 address or else the profile's
   * first one.
   */
  function ServiceCandidate(profile: NfProfile, svc: PkgFactory.NfService, parse: UrlParser): (r: Candidate)
    ensures svc.fqdn != "" ==> r == Uri(svc.scheme + "://" + svc.fqdn)
    ensures svc.fqdn == "" && profile.fqdn != "" ==> r == Uri(svc.scheme + "://" + profile.fqdn)
    ensures r.ParseFailure? <==>
      svc.fqdn == "" && profile.fqdn == "" && svc.apiPrefix != "" && parse(svc.apiPrefix).None?
    ensures svc.fqdn == "" && profile.fqdn == "" && svc.apiPrefix != "" && parse(svc.apiPrefix).Some? ==>
      r == Uri(parse(svc.apiPrefix).value.0 + "://" + parse(svc.apiPrefix).value.1)
    ensures svc.fqdn == "" && profile.fqdn == "" && svc.apiPrefix == "" ==>
      if svc.ipEndPoints == [] then r == Uri("")
      else if svc.ipEndPoints[0].ipv4Address != "" then
        r == Uri(EndpointUri(svc.scheme, svc.ipEndPoints[0].ipv4Address, svc.ipEndPoints[0].port))
      else if profile.ipv4Addresses != [] then
        r == Uri(EndpointUri(svc.scheme, profile.ipv4Addresses[0], svc.ipEndPoints[0].port))
      else r == Uri("")
  {
    if svc.fqdn != "" then Uri(svc.scheme + "://" + svc.fqdn)
    else if profile.fqdn != "" then Uri(svc.scheme + "://" + profile.fqdn)
    else if svc.apiPrefix != "" then
      match parse(svc.apiPrefix)
      case None => ParseFailure
      case Some((scheme, host)) => Uri(scheme + "://" + host)
    else if |svc.ipEndPoints| != 0 then
      var point := svc.ipEndPoints[0];
      if point.ipv4Address != "" then Uri(EndpointUri(svc.scheme, point.ipv4Address, point.port))
      else if |profile.ipv4Addresses| != 0 then Uri(EndpointUri(svc.scheme, profile.ipv4Addresses[0], point.port))
      else Uri("")
    else Uri("")
  }

  /** A service's contribution to the scan: nothing unless its name and status match. */
  function Step(profile: NfProfile, svc: PkgFactory.NfService, name: string, status: string, parse: UrlParser): Candidate
  {
    if Matches(svc, name, status) then ServiceCandidate(profile, svc, parse) else Uri("")
  }

  /** No service of `ss` decides the scan. */
  ghost predicate Undecided(profile: NfProfile, ss: seq<PkgFactory.NfService>, name: string, status: string,
                            parse: UrlParser)
  {
    forall j :: 0 <= j < |ss| ==> Step(profile, ss[j], name, status, parse) == Uri("")
  }

  /** The services from the front: the first non-empty URI, or nothing once an API prefix fails to parse. */
  function Scan(profile: NfProfile, ss: seq<PkgFactory.NfService>, name: string, status: string,
                parse: UrlParser): string
  {
    if ss == [] then ""
    else
      match Step(profile, ss[0], name, status, parse)
      case ParseFailure => ""
      case Uri(u) => if u != "" then u else Scan(profile, ss[1..], name, status, parse)
  }

  /** searchNFServiceUri, as a value: nothing for a profile that lists no services. */
  function SearchUri(profile: NfProfile, name: string, status: string, parse: UrlParser): string
  {
    if profile.nfServices.None? then "" else Scan(profile, profile.nfServices.value, name, status, parse)
  }

  /**
   * The scan answers with the URI of the first service that decides it: a
   * non-empty answer is that of a matching service preceded only by
   * undecided ones, and the first decisive service fixes the answer,
   * an unparsable API prefix making it empty.
   */
  lemma {:induction false} ScanFindsFirst(profile: NfProfile, ss: seq<PkgFactory.NfService>, name: string,
                                          status: string, parse: UrlParser)
    ensures Scan(profile, ss, name, status, parse) != "" ==>
      exists i :: 0 <= i < |ss| && Matches(ss[i], name, status) &&
        Step(profile, ss[i], name, status, parse) == Uri(Scan(profile, ss, name, status, parse)) &&
        Undecided(profile, ss[..i], name, status, parse)
    ensures forall i :: 0 <= i < |ss| && Undecided(profile, ss[..i], name, status, parse) ==>
      (Step(profile, ss[i], name, status, parse).ParseFailure? ==> Scan(profile, ss, name, status, parse) == "") &&
      (Step(profile, ss[i], name, status, parse).Uri? ==> Step(profile, ss[i], name, status, parse).uri != "" ==>
         Scan(profile, ss, name, status, parse) == Step(profile, ss[i], name, status, parse).uri)
    decreases |ss|
  {
    if ss == [] {
      return;
    }
    var r := Scan(profile, ss, name, status, parse);
    var first := Step(profile, ss[0], name, status, parse);
    if first == Uri("") {
      var tail := ss[1..];
      ScanFindsFirst(profile, tail, name, status, parse);
      assert r == Scan(profile, tail, name, status, parse);
      if r != "" {
        var i :| 0 <= i < |tail| && Matches(tail[i], name, status) &&
          Step(profile, tail[i], name, status, parse) == Uri(r) && Undecided(profile, tail[..i], name, status, parse);
        assert ss[i + 1] == tail[i];
        assert Undecided(profile, ss[..i + 1], name, status, parse) by {
          forall j | 0 <= j < i + 1 ensures Step(profile, ss[j], name, status, parse) == Uri("") {
            if j > 0 {
              assert ss[j] == tail[..i][j - 1];
            }
          }
        }
      }
      forall i | 0 <= i < |ss| && Undecided(profile, ss[..i], name, status, parse)
        ensures (Step(profile, ss[i], name, status, parse).ParseFailure? ==> r == "") &&
                (Step(profile, ss[i], name, status, parse).Uri? ==> Step(profile, ss[i], name, status, parse).uri != "" ==>
                   r == Step(profile, ss[i], name, status, parse).uri)
      {
        if i > 0 {
          assert ss[i] == tail[i - 1];
          assert Undecided(profile, tail[..i - 1], name, status, parse) by {
            forall j | 0 <= j < i - 1 ensures Step(profile, tail[j], name, status, parse) == Uri("") {
              assert tail[j] == ss[..i][j + 1];
            }
          }
        }
      }
    } else {
      assert first.ParseFailure? || first.uri != "";
      if r != "" {
        assert Matches(ss[0], name, status);
        assert Undecided(profile, ss[..0], name, status, parse);
      }
      forall i | 0 < i < |ss| ensures !Undecided(profile, ss[..i], name, status, parse) {
        assert ss[..i][0] == ss[0];
      }
    }
  }

  /**
   * searchNFServiceUri: the services are tried in order; the first non-empty
   * URI ends the search, and an API prefix that does not parse ends it with
   * nothing.
   */
  method SearchNFServiceUri(profile: NfProfile, name: string, status: string, parse: UrlParser)
    returns (nfUri: string)
    ensures nfUri == SearchUri(profile, name, status, parse)
  {
    if profile.nfServices.None? {
      return "";
    }
    var services := profile.nfServices.value;
    nfUri := "";
    var i := 0;
    while i < |services|
      invariant 0 <= i <= |services| && nfUri == ""
      invariant Scan(profile, services, name, status, parse) == Scan(profile, services[i..], name, status, parse)
      decreases |services| - i
    {
      assert services[i..][1..] == services[i + 1..];
      var service := services[i];
      if service.serviceName == name && service.nfServiceStatus == status {
        if service.fqdn != "" {
          nfUri := service.scheme + "://" + service.fqdn;
        } else if profile.fqdn != "" {
          nfUri := service.scheme + "://" + profile.fqdn;
        } else if service.apiPrefix != "" {
          var u := parse(service.apiPrefix);
          if u.None? {
            return nfUri;
          }
          nfUri := u.value.0 + "://" + u.value.1;
        } else if |service.ipEndPoints| != 0 {
          var point := service.ipEndPoints[0];
          if point.ipv4Address != "" {
            nfUri := EndpointUri(service.scheme, point.ipv4Address, point.port);
          } else if |profile.ipv4Addresses| != 0 {
            nfUri := EndpointUri(service.scheme, profile.ipv4Addresses[0], point.port);
          }
        }
      }
      if nfUri != "" {
        return nfUri;
      }
      i := i + 1;
    }
  }

  /** getProfileAndUri, as a value: the first profile with a registered URI for the service. */
  function FirstUri(profiles: seq<NfProfile>, name: string, parse: UrlParser): Result<(NfProfile, string)>
  {
    if profiles == [] then Err("no uri for " + name + " found")
    else
      var uri := SearchUri(profiles[0], name, NfStatusRegistered, parse);
      if uri != "" then Ok((profiles[0], uri)) else FirstUri(profiles[1..], name, parse)
  }

  /**
   * The selection fails exactly when no profile yields a URI, and otherwise
   * answers with the first profile that does and its URI.
   */
  lemma {:induction false} FirstUriIsFirst(profiles: seq<NfProfile>, name: string, parse: UrlParser)
    ensures FirstUri(profiles, name, parse).Err? <==>
      forall i :: 0 <= i < |profiles| ==> SearchUri(profiles[i], name, NfStatusRegistered, parse) == ""
    ensures FirstUri(profiles, name, parse).Err? ==>
      FirstUri(profiles, name, parse).error == "no uri for " + name + " found"
    ensures FirstUri(profiles, name, parse).Ok? ==>
      exists i :: 0 <= i < |profiles| && FirstUri(profiles, name, parse).value == (profiles[i], SearchUri(profiles[i], name, NfStatusRegistered, parse)) &&
        SearchUri(profiles[i], name, NfStatusRegistered, parse) != "" &&
        forall j :: 0 <= j < i ==> SearchUri(profiles[j], name, NfStatusRegistered, parse) == ""
    decreases |profiles|
  {
    if profiles == [] {
      return;
    }
    var tail := profiles[1..];
    if SearchUri(profiles[0], name, NfStatusRegistered, parse) != "" {
      assert FirstUri(profiles, name, parse).value == (profiles[0], SearchUri(profiles[0], name, NfStatusRegistered, parse));
      return;
    }
    FirstUriIsFirst(tail, name, parse);
    assert FirstUri(profiles, name, parse) == FirstUri(tail, name, parse);
    if FirstUri(tail, name, parse).Ok? {
      var i :| 0 <= i < |tail| && FirstUri(tail, name, parse).value == (tail[i], SearchUri(tail[i], name, NfStatusRegistered, parse)) &&
        SearchUri(tail[i], name, NfStatusRegistered, parse) != "" &&
        forall j :: 0 <= j < i ==> SearchUri(tail[j], name, NfStatusRegistered, parse) == "";
      assert profiles[i + 1] == tail[i];
      forall j | 0 <= j < i + 1 ensures SearchUri(profiles[j], name, NfStatusRegistered, parse) == "" {
        if j > 0 {
          assert profiles[j] == tail[j - 1];
        }
      }
    } else {
      forall i | 0 <= i < |profiles| ensures SearchUri(profiles[i], name, NfStatusRegistered, parse) == "" {
        if i > 0 {
          assert profiles[i] == tail[i - 1];
        }
      }
    }
  }

  /**
   * getProfileAndUri: the profiles are tried in order for a REGISTERED
   * service of the name; the first URI found ends the search, and none at all
   * is the error "no uri for <name> found".
   */
  method GetProfileAndUri(nfInstances: seq<NfProfile>, srvName: string, parse: UrlParser)
    returns (r: Result<(NfProfile, string)>)
    ensures r == FirstUri(nfInstances, srvName, parse)
  {
    var i := 0;
    while i < |nfInstances|
      invariant 0 <= i <= |nfInstances|
      invariant FirstUri(nfInstances, srvName, parse) == FirstUri(nfInstances[i..], srvName, parse)
      decreases |nfInstances| - i
    {
      assert nfInstances[i..][1..] == nfInstances[i + 1..];
      var uri := SearchNFServiceUri(nfInstances[i], srvName, NfStatusRegistered, parse);
      if uri != "" {
        return Ok((nfInstances[i], uri));
      }
      i := i + 1;
    }
    r := Err("no uri for " + srvName + " found");
  }

  // ---------------------------------------------------------------------------
  // Discovery
  // ---------------------------------------------------------------------------

  /** The discovery client's answer: the HTTP status when a response came back, the profiles found, the client error. */
  datatype DiscoveryReply = DiscoveryReply(status: Option<int>, nfInstances: seq<NfProfile>, err: Option<string>)

  /** SearchNFInstances: the client's answer, with a 307 answer turned into an error. */
  function SearchNFInstances(reply: DiscoveryReply): (r: (seq<NfProfile>, Option<string>))
    ensures r.0 == reply.nfInstances
    ensures reply.status == Some(StatusTemporaryRedirect) ==> r.1 == Some(ErrTemporaryRedirect)
    ensures r.1.None? ==> reply.err.None? && reply.status != Some(StatusTemporaryRedirect)
    ensures reply.status != Some(StatusTemporaryRedirect) ==> r.1 == reply.err
  {
    if reply.status == Some(StatusTemporaryRedirect) then (reply.nfInstances, Some(ErrTemporaryRedirect))
    else (reply.nfInstances, reply.err)
  }

  /**
   * The URI of a service of the discovered profiles: an error of the
   * discovery, or of the selection, is passed on with an empty URI;
   * otherwise the URI is the first one a profile yields.
   */
  method SearchServiceUri(reply: DiscoveryReply, srvName: string, parse: UrlParser)
    returns (uri: string, err: Option<string>)
    ensures err.None? <==> SearchNFInstances(reply).1.None? && FirstUri(reply.nfInstances, srvName, parse).Ok?
    ensures err.None? ==> uri == FirstUri(reply.nfInstances, srvName, parse).value.1 && uri != ""
    ensures err.Some? ==> uri == ""
    ensures SearchNFInstances(reply).1.Some? ==> err == SearchNFInstances(reply).1
    ensures SearchNFInstances(reply).1.None? && FirstUri(reply.nfInstances, srvName, parse).Err? ==>
      err == Some(FirstUri(reply.nfInstances, srvName, parse).error)
  {
    var (nfInstances, e) := SearchNFInstances(reply);
    if e.Some? {
      return "", e;
    }
    var found := GetProfileAndUri(nfInstances, srvName, parse);
    if found.Err? {
      return "", Some(found.error);
    }
    FirstUriIsFirst(nfInstances, srvName, parse);
    uri, err := found.value.1, None;
  }

  /** SearchPcfPolicyAuthUri: the URI of the PCF's policy authorization service. */
  method SearchPcfPolicyAuthUri(reply: DiscoveryReply, parse: UrlParser) returns (uri: string, err: Option<string>)
    ensures err.None? ==>
      FirstUri(reply.nfInstances, ServiceNamePcfPolicyAuthorization, parse).Ok? &&
      uri == FirstUri(reply.nfInstances, ServiceNamePcfPolicyAuthorization, parse).value.1 && uri != ""
    ensures err.Some? ==> uri == ""
    ensures reply.status == Some(StatusTemporaryRedirect) ==> err == Some(ErrTemporaryRedirect)
    ensures SearchNFInstances(reply).1.None? && FirstUri(reply.nfInstances, ServiceNamePcfPolicyAuthorization, parse).Err? ==>
      err == Some("no uri for " + ServiceNamePcfPolicyAuthorization + " found")
  {
    uri, err := SearchServiceUri(reply, ServiceNamePcfPolicyAuthorization, parse);
    FirstUriIsFirst(reply.nfInstances, ServiceNamePcfPolicyAuthorization, parse);
  }

  /** SearchUdrDrUri: the URI of the UDR's data repository service. */
  method SearchUdrDrUri(reply: DiscoveryReply, parse: UrlParser) returns (uri: string, err: Option<string>)
    ensures err.None? ==>
      FirstUri(reply.nfInstances, ServiceNameUdrDr, parse).Ok? &&
      uri == FirstUri(reply.nfInstances, ServiceNameUdrDr, parse).value.1 && uri != ""
    ensures err.Some? ==> uri == ""
    ensures reply.status == Some(StatusTemporaryRedirect) ==> err == Some(ErrTemporaryRedirect)
    ensures SearchNFInstances(reply).1.None? && FirstUri(reply.nfInstances, ServiceNameUdrDr, parse).Err? ==>
      err == Some("no uri for " + ServiceNameUdrDr + " found")
  {
    uri, err := SearchServiceUri(reply, ServiceNameUdrDr, parse);
    FirstUriIsFirst(reply.nfInstances, ServiceNameUdrDr, parse);
  }

  // ---------------------------------------------------------------------------
  // Registration and discovery together
  // ---------------------------------------------------------------------------

  /** A scan over services that all agree on one decisive candidate ends with it. */
  lemma {:induction false} ScanUniform(profile: NfProfile, ss: seq<PkgFactory.NfService>, name: string, status: string,
                                       parse: UrlParser, c: Candidate)
    requires c.ParseFailure? || c.uri != ""
    requires forall j :: 0 <= j < |ss| && Matches(ss[j], name, status) ==> ServiceCandidate(profile, ss[j], parse) == c
    requires exists j :: 0 <= j < |ss| && Matches(ss[j], name, status)
    ensures Scan(profile, ss, name, status, parse) == (if c.ParseFailure? then "" else c.uri)
    decreases |ss|
  {
    if !Matches(ss[0], name, status) {
      var j :| 0 <= j < |ss| && Matches(ss[j], name, status);
      assert ss[1..][j - 1] == ss[j];
      forall k | 0 <= k < |ss[1..]| && Matches(ss[1..][k], name, status)
        ensures ServiceCandidate(profile, ss[1..][k], parse) == c
      {
        assert ss[1..][k] == ss[k + 1];
      }
      ScanUniform(profile, ss[1..], name, status, parse, c);
    }
  }

  /** What the NEF's own services offer: the scheme and host of its SBI URI, or a parse failure. */
  function OwnCandidate(c: PkgFactory.Config, parse: UrlParser): Candidate
  {
    match parse(PkgFactory.SbiUri(c))
    case None => ParseFailure
    case Some((scheme, host)) => Uri(scheme + "://" + host)
  }

  /** Every service of the NEF's own profile carries the SBI URI as its API prefix and so offers OwnCandidate. */
  lemma OwnServiceCandidate(c: PkgFactory.Config, nfInstID: string, parse: UrlParser, i: nat)
    requires i < |c.configuration.serviceList|
    ensures var profile := BuildNfProfile(c, nfInstID);
      ServiceCandidate(profile, profile.nfServices.value[i], parse) == OwnCandidate(c, parse)
  {
    assert PkgFactory.SbiUri(c) != "" by {
      assert PkgFactory.SbiUri(c) == PkgFactory.SbiScheme(c) + "://" + PkgFactory.SbiRegisterAddr(c);
    }
  }

  /**
   * A NEF that registers its own profile is found by it: for a configured
   * service, the discovered URI is the scheme and host of its SBI URI, and
   * nothing when that URI does not parse.
   */
  lemma OwnProfileIsDiscoverable(c: PkgFactory.Config, nfInstID: string, name: string, parse: UrlParser)
    requires exists k :: 0 <= k < |c.configuration.serviceList| && c.configuration.serviceList[k].serviceName == name
    ensures SearchUri(BuildNfProfile(c, nfInstID), name, NfStatusRegistered, parse) ==
      match parse(PkgFactory.SbiUri(c))
      case None => ""
      case Some((scheme, host)) => scheme + "://" + host
  {
    var profile := BuildNfProfile(c, nfInstID);
    var ss := profile.nfServices.value;
    var k :| 0 <= k < |c.configuration.serviceList| && c.configuration.serviceList[k].serviceName == name;
    assert Matches(ss[k], name, NfStatusRegistered);
    forall j | 0 <= j < |ss| && Matches(ss[j], name, NfStatusRegistered)
      ensures ServiceCandidate(profile, ss[j], parse) == OwnCandidate(c, parse)
    {
      OwnServiceCandidate(c, nfInstID, parse, j);
    }
    ScanUniform(profile, ss, name, NfStatusRegistered, parse, OwnCandidate(c, parse));
  }
}
