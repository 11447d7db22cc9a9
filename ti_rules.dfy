/**
 * The rules of the traffic influence service (3GPP TS 29.122 clause 5.4)
 * that both processor generations share (internal/sbi/processor/ti.go and
 * internal/processor/ti_handler.go): the request checks, the choice between
 * the PCF (one UE) and the UDR (a group or any UE), the field-copying
 * conversions between the service's TrafficInfluSub and the data the PCF and
 * the UDR keep, the subscription resource URI, and the answers the read,
 * update and delete handlers build from a peer's reply.
 */
module TiRules {
  import opened Common
  import opened Models

  const DetailNoAfTransID := "Missing AfTransID"
  const DetailNoServiceOrDnn := "Missing AfServiceId or Dnn"
  const DetailNoAppOrFilter := "Missing one of afAppId, trafficFilters or ethTrafficFilters"
  const DetailNoTarget := "Missing one of Gpsi, Ipv4Addr, Ipv6Addr, ExternalGroupId, AnyUeInd"
  const DetailNoRoute := "Not individual UE case, nor group case"
  const DetailNoResource := "No resource can be allocated"

  // ---------------------------------------------------------------------------
  // Request checks and routing
  // ---------------------------------------------------------------------------

  /** The request names one UE: a GPSI or an IPv4 or IPv6 address. */
  predicate NamesUe(s: TrafficInfluSub)
  {
    |s.gpsi| > 0 || |s.ipv4Addr| > 0 || |s.ipv6Addr| > 0
  }

  /** The request names a group of UEs or any UE. */
  predicate NamesGroup(s: TrafficInfluSub)
  {
    |s.externalGroupId| > 0 || s.anyUeInd
  }

  datatype Route = ToPcf | ToUdr | Unroutable

  /**
   * Where a creation request goes: one UE to the PCF, a group or any UE to
   * the UDR, and the request is refused when it names neither.
   */
  function RouteOf(s: TrafficInfluSub): (r: Route)
    ensures r == ToPcf <==> NamesUe(s)
    ensures r == ToUdr <==> !NamesUe(s) && NamesGroup(s)
  {
    if NamesUe(s) then ToPcf else if NamesGroup(s) then ToUdr else Unroutable
  }

  function Malformed(detail: string): HandlerResponse
  {
    ProblemResponse(ProblemMalformedReqSyntax(detail))
  }

  /**
   * validateTrafficInfluenceData of the newer generation: four checks in a
   * fixed order, the first that fails answering 400 with its own detail.
   */
  function ValidateTrafficInfluenceData(s: TrafficInfluSub): (r: Option<HandlerResponse>)
    ensures r.None? <==>
      s.afTransId != "" && (s.afServiceId != "" || s.dnn != "") &&
      (s.afAppId != "" || |s.trafficFilters| > 0 || |s.ethTrafficFilters| > 0) &&
      (NamesUe(s) || NamesGroup(s))
    ensures r.Some? ==>
      r.value.status == StatusBadRequest && r.value.location.None? &&
      r.value.body.Problem? && r.value.body.problem.kind == MalformedReqSyntax
    ensures s.afTransId == "" ==> r == Some(Malformed(DetailNoAfTransID))
    ensures s.afTransId != "" && s.afServiceId == "" && s.dnn == "" ==> r == Some(Malformed(DetailNoServiceOrDnn))
    ensures s.afTransId != "" && (s.afServiceId != "" || s.dnn != "") &&
            s.afAppId == "" && |s.trafficFilters| == 0 && |s.ethTrafficFilters| == 0 ==>
            r == Some(Malformed(DetailNoAppOrFilter))
    ensures s.afTransId != "" && (s.afServiceId != "" || s.dnn != "") &&
            (s.afAppId != "" || |s.trafficFilters| > 0 || |s.ethTrafficFilters| > 0) &&
            !(NamesUe(s) || NamesGroup(s)) ==>
            r == Some(Malformed(DetailNoTarget))
  {
    if s.afTransId == "" then Some(Malformed(DetailNoAfTransID))
    else if s.afServiceId == "" && s.dnn == "" then Some(Malformed(DetailNoServiceOrDnn))
    else if s.afAppId == "" && |s.trafficFilters| == 0 && |s.ethTrafficFilters| == 0 then
      Some(Malformed(DetailNoAppOrFilter))
    else if s.gpsi == "" && s.ipv4Addr == "" && s.ipv6Addr == "" && s.externalGroupId == "" && !s.anyUeInd then
      Some(Malformed(DetailNoTarget))
    else None
  }

  /** A request that passes the checks always has a route: the refusal of an unroutable request is dead code. */
  lemma ValidatedIsRouted(s: TrafficInfluSub)
    requires ValidateTrafficInfluenceData(s).None?
    ensures RouteOf(s) != Unroutable
  {
  }

  // ---------------------------------------------------------------------------
  // Conversions
  // ---------------------------------------------------------------------------

  /** convertTrafficInfluDataToTrafficInfluSub: the seven attributes the UDR keeps. */
  function FromTiData(d: TrafficInfluData): TrafficInfluSub
  {
    EmptyTiSub.(appReloInd := d.appReloInd, afAppId := d.afAppId, dnn := d.dnn,
                ethTrafficFilters := d.ethTrafficFilters, snssai := d.snssai,
                trafficFilters := d.trafficFilters, trafficRoutes := d.trafficRoutes)
  }

  /** convertTrafficInfluSubToTrafficInfluData. */
  function ToTiData(s: TrafficInfluSub): TrafficInfluData
  {
    TrafficInfluData(s.appReloInd, s.afAppId, s.dnn, s.ethTrafficFilters, s.snssai, s.trafficFilters, s.trafficRoutes)
  }

  /** convertAppSessionContextToTrafficInfluSub: the six attributes the PCF's context carries. */
  function FromAppSession(asc: AppSessionContext): TrafficInfluSub
  {
    var rd := asc.ascReqData;
    EmptyTiSub.(afAppId := rd.afAppId, appReloInd := rd.appReloc, dnaiChgType := rd.dnaiChgType,
                dnn := rd.dnn, gpsi := rd.gpsi, suppFeat := rd.suppFeat)
  }

  /** The application session context pcfPostAppSessions sends for a request. */
  function PostAsc(s: TrafficInfluSub): AppSessionContext
  {
    AppSessionContext(AppSessionContextReqData(s.afAppId, s.appReloInd, s.dnaiChgType, "", "", ""))
  }

  /** Data read back from the UDR converts to exactly the data stored. */
  lemma DataRoundTrip(d: TrafficInfluData)
    ensures ToTiData(FromTiData(d)) == d
  {
  }

  /**
   * A subscription sent to the UDR and read back keeps the seven attributes
   * the UDR stores, and has every other attribute absent.
   */
  lemma SubRoundTrip(s: TrafficInfluSub)
    ensures var t := FromTiData(ToTiData(s));
      t.appReloInd == s.appReloInd && t.afAppId == s.afAppId && t.dnn == s.dnn &&
      t.ethTrafficFilters == s.ethTrafficFilters && t.snssai == s.snssai &&
      t.trafficFilters == s.trafficFilters && t.trafficRoutes == s.trafficRoutes
    ensures FromTiData(ToTiData(s)) == EmptyTiSub.(appReloInd := s.appReloInd, afAppId := s.afAppId,
      dnn := s.dnn, ethTrafficFilters := s.ethTrafficFilters, snssai := s.snssai,
      trafficFilters := s.trafficFilters, trafficRoutes := s.trafficRoutes)
  {
  }

  /**
   * A subscription sent to the PCF keeps, when the PCF returns the context it
   * was given, its application, relocation indication and DNAI change type.
   */
  lemma AppSessionRoundTrip(s: TrafficInfluSub)
    ensures var t := FromAppSession(PostAsc(s));
      t.afAppId == s.afAppId && t.appReloInd == s.appReloInd && t.dnaiChgType == s.dnaiChgType &&
      t.dnn == "" && t.gpsi == "" && t.trafficFilters == []
  {
  }

  // ---------------------------------------------------------------------------
  // Resource URI
  // ---------------------------------------------------------------------------

  /** genTrafficInfluSubURI, below the service's base URI `base`. */
  function TiSubURI(base: string, afID: string, subID: string): string
  {
    base + "/" + afID + "/subscriptions/" + subID
  }

  /**
   * A subscription's URI lies below its AF's collection under the service
   * base, and its last segment gives back a slash-free subscription identifier.
   */
  lemma TiSubURIEndsWithID(base: string, afID: string, subID: string)
    requires NoSlash(subID)
    ensures TiSubURI(base, afID, subID)[..|base| + 1 + |afID|] == base + "/" + afID
    ensures LastSegment(TiSubURI(base, afID, subID)) == subID
  {
    var subs := base + "/" + afID + "/subscriptions";
    assert TiSubURI(base, afID, subID) == subs + "/" + subID;
    assert subs[..|base| + 1 + |afID|] == base + "/" + afID;
    LastSegmentOfAppend(subs, subID);
  }

  // ---------------------------------------------------------------------------
  // Reading all subscriptions of an AF
  // ---------------------------------------------------------------------------

  /** The loop over the PCF's sessions either lists them all or stops at a refusal. */
  datatype Listing = Listed(subs: seq<TrafficInfluSub>) | Refused(reply: PeerReply)

  /** The entry listed for the PCF session `id`: its context, with the session's URI as Self. */
  function PcfEntry(pcf: PcfAppSessions, base: string, afID: string, id: string): TrafficInfluSub
    requires PcfWellTyped(pcf) && pcf.getAppSession(id).status == StatusOK
  {
    FromAppSession(pcf.getAppSession(id).body.asc).(self := TiSubURI(base, afID, id))
  }

  /**
   * The PCF part of GetTrafficInfluenceSubscription: the sessions `ids` are
   * read in turn; the first reply other than 200 ends the listing.
   */
  function PcfListing(pcf: PcfAppSessions, base: string, afID: string, ids: seq<string>): (r: Listing)
    requires PcfWellTyped(pcf)
    ensures r.Listed? <==> forall k :: 0 <= k < |ids| ==> pcf.getAppSession(ids[k]).status == StatusOK
    ensures r.Listed? ==>
      |r.subs| == |ids| && forall k :: 0 <= k < |ids| ==> r.subs[k] == PcfEntry(pcf, base, afID, ids[k])
    ensures r.Refused? ==>
      exists k :: 0 <= k < |ids| && r.reply == pcf.getAppSession(ids[k]) && r.reply.status != StatusOK &&
        forall j :: 0 <= j < k ==> pcf.getAppSession(ids[j]).status == StatusOK
    decreases |ids|
  {
    if ids == [] then Listed([])
    else
      var init, last := ids[..|ids| - 1], ids[|ids| - 1];
      var prev := PcfListing(pcf, base, afID, init);
      assert forall k :: 0 <= k < |init| ==> init[k] == ids[k];
      if prev.Refused? then prev
      else if pcf.getAppSession(last).status != StatusOK then Refused(pcf.getAppSession(last))
      else Listed(prev.subs + [PcfEntry(pcf, base, afID, last)])
  }

  /** Reading one more session after a complete listing either refuses the listing or extends it by its entry. */
  lemma PcfListingStep(pcf: PcfAppSessions, base: string, afID: string, ids: seq<string>, i: nat)
    requires PcfWellTyped(pcf) && i < |ids|
    ensures var prev, reply := PcfListing(pcf, base, afID, ids[..i]), pcf.getAppSession(ids[i]);
      prev.Listed? ==>
        PcfListing(pcf, base, afID, ids[..i + 1]) ==
          if reply.status != StatusOK then Refused(reply) else Listed(prev.subs + [PcfEntry(pcf, base, afID, ids[i])])
  {
    assert ids[..i + 1][..i] == ids[..i];
  }

  /** Once a prefix of the sessions is refused, reading further sessions does not change the outcome. */
  lemma {:induction false} RefusalIsFinal(pcf: PcfAppSessions, base: string, afID: string, ids: seq<string>, n: nat)
    requires PcfWellTyped(pcf) && n <= |ids| && PcfListing(pcf, base, afID, ids[..n]).Refused?
    ensures PcfListing(pcf, base, afID, ids) == PcfListing(pcf, base, afID, ids[..n])
    decreases |ids|
  {
    if n < |ids| {
      var init := ids[..|ids| - 1];
      assert init[..n] == ids[..n];
      RefusalIsFinal(pcf, base, afID, init, n);
    } else {
      assert ids[..n] == ids;
    }
  }

  /** The PCF loop of GetTrafficInfluenceSubscription. */
  method CollectPcf(pcf: PcfAppSessions, base: string, afID: string, ids: seq<string>) returns (r: Listing)
    requires PcfWellTyped(pcf)
    ensures r == PcfListing(pcf, base, afID, ids)
  {
    var subs: seq<TrafficInfluSub> := [];
    var i := 0;
    while i < |ids|
      invariant 0 <= i <= |ids|
      invariant PcfListing(pcf, base, afID, ids[..i]) == Listed(subs)
    {
      PcfListingStep(pcf, base, afID, ids, i);
      var reply := pcf.getAppSession(ids[i]);
      if reply.status != StatusOK {
        RefusalIsFinal(pcf, base, afID, ids, i + 1);
        return Refused(reply);
      }
      var tiSub := FromAppSession(reply.body.asc);
      tiSub := tiSub.(self := TiSubURI(base, afID, ids[i]));
      subs := subs + [tiSub];
      i := i + 1;
    }
    assert ids[..i] == ids;
    r := Listed(subs);
  }

  /** The entry listed for one item of the UDR's data: its Self names the placeholder subscription "0". */
  function UdrEntry(d: TrafficInfluData, base: string, afID: string): TrafficInfluSub
  {
    FromTiData(d).(self := TiSubURI(base, afID, "0"))
  }

  /** The UDR part of the listing, one entry per item of data the UDR returned, in its order. */
  function UdrListing(datas: seq<TrafficInfluData>, base: string, afID: string): (r: seq<TrafficInfluSub>)
    ensures |r| == |datas|
    ensures forall k :: 0 <= k < |r| ==> ToTiData(r[k]) == datas[k] && r[k].self == TiSubURI(base, afID, "0")
  {
    seq(|datas|, k requires 0 <= k < |datas| => UdrEntry(datas[k], base, afID))
  }

  /** The loop over the UDR's data in GetTrafficInfluenceSubscription. */
  method CollectUdr(datas: seq<TrafficInfluData>, base: string, afID: string) returns (subs: seq<TrafficInfluSub>)
    ensures subs == UdrListing(datas, base, afID)
  {
    subs := [];
    for i := 0 to |datas|
      invariant subs == UdrListing(datas[..i], base, afID)
    {
      var tiSub := FromTiData(datas[i]);
      tiSub := tiSub.(self := TiSubURI(base, afID, "0"));
      subs := subs + [tiSub];
    }
    assert datas[..|datas|] == datas;
  }

  /**
   * The answer of GetTrafficInfluenceSubscription for an AF whose
   * subscriptions are kept at the PCF under the sessions `inPcf` and at the
   * UDR under the influence identifiers `inUdr`: a refusal by the PCF or the
   * UDR is passed on; otherwise 200 with the PCF entries followed by the UDR
   * entries (the UDR is not asked when no subscription is kept there).
   */
  function ListAnswer(pcf: PcfAppSessions, udr: UdrInfluence, base: string, afID: string,
                      inPcf: seq<string>, inUdr: seq<string>): (rsp: HandlerResponse)
    requires PcfWellTyped(pcf) && UdrInfluenceWellTyped(udr)
    ensures rsp.status == StatusOK <==>
      (forall k :: 0 <= k < |inPcf| ==> pcf.getAppSession(inPcf[k]).status == StatusOK) &&
      (|inUdr| == 0 || udr.influenceDataGet(inUdr).status == StatusOK)
    ensures rsp.status == StatusOK ==>
      rsp.location.None? && rsp.body.TiSubs? &&
      |rsp.body.tiSubs| == |inPcf| + (if |inUdr| == 0 then 0 else |udr.influenceDataGet(inUdr).body.datas|) &&
      forall k :: 0 <= k < |inPcf| ==> rsp.body.tiSubs[k] == PcfEntry(pcf, base, afID, inPcf[k])
    ensures rsp.status == StatusOK && |inUdr| > 0 ==>
      forall k :: 0 <= k < |udr.influenceDataGet(inUdr).body.datas| ==>
        rsp.body.tiSubs[|inPcf| + k] == UdrEntry(udr.influenceDataGet(inUdr).body.datas[k], base, afID)
    ensures rsp.status != StatusOK ==>
      (exists k :: 0 <= k < |inPcf| && rsp == PeerResponse(pcf.getAppSession(inPcf[k]))) ||
      rsp == PeerResponse(udr.influenceDataGet(inUdr))
    ensures forall k ::
      (0 <= k < |inPcf| && pcf.getAppSession(inPcf[k]).status != StatusOK &&
       forall j :: 0 <= j < k ==> pcf.getAppSession(inPcf[j]).status == StatusOK) ==>
        rsp == PeerResponse(pcf.getAppSession(inPcf[k]))
    ensures ((forall k :: 0 <= k < |inPcf| ==> pcf.getAppSession(inPcf[k]).status == StatusOK) &&
             |inUdr| > 0 && udr.influenceDataGet(inUdr).status != StatusOK) ==>
      rsp == PeerResponse(udr.influenceDataGet(inUdr))
  {
    match PcfListing(pcf, base, afID, inPcf)
    case Refused(reply) => PeerResponse(reply)
    case Listed(subs) =>
      if |inUdr| == 0 then HandlerResponse(StatusOK, None, TiSubs(subs))
      else
        var reply := udr.influenceDataGet(inUdr);
        if reply.status != StatusOK then PeerResponse(reply)
        else HandlerResponse(StatusOK, None, TiSubs(subs + UdrListing(reply.body.datas, base, afID)))
  }

  // ---------------------------------------------------------------------------
  // Reading, updating and deleting one subscription
  // ---------------------------------------------------------------------------

  /** The peer that keeps a subscription answers a read of it: the PCF for one UE, else the UDR. */
  function ReadReply(pcf: PcfAppSessions, udr: UdrInfluence, individual: bool, appSessID: string, influID: string): PeerReply
  {
    if individual then pcf.getAppSession(appSessID) else udr.influenceDataIdGet(influID)
  }

  /**
   * The answer of GetIndividualTrafficInfluenceSubscription for a stored
   * subscription: the peer's refusal as it is, or 200 with the subscription
   * converted from the peer's data and `uri` as its Self.
   */
  function IndividualAnswer(pcf: PcfAppSessions, udr: UdrInfluence, uri: string,
                            individual: bool, appSessID: string, influID: string): (rsp: HandlerResponse)
    requires PcfWellTyped(pcf) && UdrInfluenceWellTyped(udr)
    ensures var reply := ReadReply(pcf, udr, individual, appSessID, influID);
      (reply.status != StatusOK ==> rsp == PeerResponse(reply)) &&
      (reply.status == StatusOK ==>
         rsp.status == StatusOK && rsp.location.None? && rsp.body.TiSub? && rsp.body.tiSub.self == uri)
    ensures !individual && rsp.status == StatusOK ==>
      ToTiData(rsp.body.tiSub) == udr.influenceDataIdGet(influID).body.data
  {
    if individual then
      var reply := pcf.getAppSession(appSessID);
      if reply.status != StatusOK then PeerResponse(reply)
      else HandlerResponse(StatusOK, None, TiSub(FromAppSession(reply.body.asc).(self := uri)))
    else
      var reply := udr.influenceDataIdGet(influID);
      if reply.status != StatusOK then PeerResponse(reply)
      else HandlerResponse(StatusOK, None, TiSub(FromTiData(reply.body.data).(self := uri)))
  }

  /**
   * A subscription kept at the PCF is listed by the AF-wide read exactly as
   * it is read alone, except that the listing names it by its session
   * identifier instead of its subscription identifier.
   */
  lemma ListedLikeIndividual(pcf: PcfAppSessions, udr: UdrInfluence, base: string, afID: string,
                             subID: string, appSessID: string, influID: string)
    requires PcfWellTyped(pcf) && UdrInfluenceWellTyped(udr)
    requires pcf.getAppSession(appSessID).status == StatusOK
    ensures IndividualAnswer(pcf, udr, TiSubURI(base, afID, subID), true, appSessID, influID).body.tiSub.(
              self := TiSubURI(base, afID, appSessID)) == PcfEntry(pcf, base, afID, appSessID)
  {
  }

  /** The peer that keeps a subscription answers the (always empty) update of it. */
  function PatchReply(pcf: PcfAppSessions, udr: UdrInfluence, individual: bool, appSessID: string, influID: string): PeerReply
  {
    if individual then pcf.patchAppSession(appSessID) else udr.influenceDataPatch(influID)
  }

  /**
   * The answer of PatchIndividualTrafficInfluenceSubscription for a stored
   * subscription: the peer's refusal as it is, or 200 with the subscription
   * converted from the peer's data, without a Self.
   */
  function PatchAnswer(pcf: PcfAppSessions, udr: UdrInfluence, individual: bool,
                       appSessID: string, influID: string): (rsp: HandlerResponse)
    requires PcfWellTyped(pcf) && UdrInfluenceWellTyped(udr)
    ensures var reply := PatchReply(pcf, udr, individual, appSessID, influID);
      (reply.status != StatusOK ==> rsp == PeerResponse(reply)) &&
      (reply.status == StatusOK ==>
         rsp.status == StatusOK && rsp.location.None? && rsp.body.TiSub? && rsp.body.tiSub.self == "")
    ensures !individual && rsp.status == StatusOK ==>
      ToTiData(rsp.body.tiSub) == udr.influenceDataPatch(influID).body.data
  {
    if individual then
      var reply := pcf.patchAppSession(appSessID);
      if reply.status != StatusOK then PeerResponse(reply)
      else HandlerResponse(StatusOK, None, TiSub(FromAppSession(reply.body.asc)))
    else
      var reply := udr.influenceDataPatch(influID);
      if reply.status != StatusOK then PeerResponse(reply)
      else HandlerResponse(StatusOK, None, TiSub(FromTiData(reply.body.data)))
  }

  /** The peer that keeps a subscription answers its deletion. */
  function DeleteReply(pcf: PcfAppSessions, udr: UdrInfluence, individual: bool, appSessID: string, influID: string): PeerReply
  {
    if individual then pcf.deleteAppSession(appSessID) else udr.influenceDataDelete(influID)
  }
}
