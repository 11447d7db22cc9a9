/**
 * The message types the NEF exchanges (3GPP TS 29.122 PFD management and
 * traffic influence, TS 29.551 PFD functions, the UDR and PCF data it relays),
 * the problem details it answers with, and the handler response shape.
 * Only the attributes the modelled code reads or writes are kept.
 */
module Models {
  import opened Common

  // HTTP status codes used by the handlers
  const StatusOK := 200
  const StatusCreated := 201
  const StatusNoContent := 204
  const StatusAlreadyReported := 208
  const StatusTemporaryRedirect := 307
  const StatusBadRequest := 400
  const StatusNotFound := 404
  const StatusInternalServerError := 500

  // ---------------------------------------------------------------------------
  // Problem details
  // ---------------------------------------------------------------------------

  datatype ProblemKind = DataNotFound | SystemFailure | MalformedReqSyntax

  datatype ProblemDetails = ProblemDetails(kind: ProblemKind, status: int, detail: string)

  function ProblemDataNotFound(detail: string): ProblemDetails
  {
    ProblemDetails(DataNotFound, StatusNotFound, detail)
  }

  function ProblemSystemFailure(detail: string): ProblemDetails
  {
    ProblemDetails(SystemFailure, StatusInternalServerError, detail)
  }

  function ProblemMalformedReqSyntax(detail: string): ProblemDetails
  {
    ProblemDetails(MalformedReqSyntax, StatusBadRequest, detail)
  }

  // ---------------------------------------------------------------------------
  // PFD management (TS 29.122 clause 5.11) and PFD functions (TS 29.551)
  // ---------------------------------------------------------------------------

  datatype Pfd = Pfd(pfdId: string, flowDescriptions: seq<string>, urls: seq<string>, domainNames: seq<string>)

  /** None of flow descriptions, URLs or domain names is given. */
  predicate NoPfdInfo(p: Pfd)
  {
    |p.flowDescriptions| == 0 && |p.urls| == 0 && |p.domainNames| == 0
  }

  datatype PfdData = PfdData(externalAppId: string, self: string, pfds: map<string, Pfd>)

  datatype PfdContent = PfdContent(pfdId: string, flowDescriptions: seq<string>, urls: seq<string>, domainNames: seq<string>)

  datatype PfdDataForApp = PfdDataForApp(applicationId: string, pfds: seq<PfdContent>)

  datatype FailureCode = MALFUNCTION | APP_ID_DUPLICATED

  datatype PfdReport = PfdReport(externalAppIds: seq<string>, failureCode: FailureCode)

  datatype PfdManagement = PfdManagement(
    self: string,
    pfdDatas: map<string, PfdData>,
    pfdReports: map<FailureCode, PfdReport>)

  datatype PfdChangeNotification = PfdChangeNotification(applicationId: string, removalFlag: bool, pfds: seq<PfdContent>)

  /** The value Go's map lookup yields for an absent key. */
  const ZeroNotification := PfdChangeNotification("", false, [])

  datatype PfdSubscription = PfdSubscription(applicationIds: seq<string>, notifyUri: string)

  // ---------------------------------------------------------------------------
  // Traffic influence (TS 29.122 clause 5.4) and the data relayed to UDR / PCF
  // ---------------------------------------------------------------------------

  datatype Snssai = Snssai(sst: int, sd: string)

  datatype TrafficInfluSub = TrafficInfluSub(
    afServiceId: string,
    afAppId: string,
    afTransId: string,
    appReloInd: bool,
    dnn: string,
    snssai: Option<Snssai>,
    externalGroupId: string,
    anyUeInd: bool,
    gpsi: string,
    ipv4Addr: string,
    ipv6Addr: string,
    trafficFilters: seq<string>,
    ethTrafficFilters: seq<string>,
    trafficRoutes: seq<string>,
    dnaiChgType: string,
    suppFeat: string,
    self: string)

  /** A traffic influence subscription with every attribute absent. */
  const EmptyTiSub := TrafficInfluSub("", "", "", false, "", None, "", false, "", "", "", [], [], [], "", "", "")

  datatype TrafficInfluData = TrafficInfluData(
    appReloInd: bool,
    afAppId: string,
    dnn: string,
    ethTrafficFilters: seq<string>,
    snssai: Option<Snssai>,
    trafficFilters: seq<string>,
    trafficRoutes: seq<string>)

  datatype AppSessionContextReqData = AppSessionContextReqData(
    afAppId: string,
    appReloc: bool,
    dnaiChgType: string,
    dnn: string,
    gpsi: string,
    suppFeat: string)

  datatype AppSessionContext = AppSessionContext(ascReqData: AppSessionContextReqData)

  /** The attributes of a traffic influence PATCH request that are kept (the handlers ignore them). */
  datatype TrafficInfluSubPatch = TrafficInfluSubPatch(
    appReloInd: bool,
    trafficFilters: seq<string>,
    ethTrafficFilters: seq<string>,
    trafficRoutes: seq<string>)

  // ---------------------------------------------------------------------------
  // Replies of the peer network functions and the handler response
  // ---------------------------------------------------------------------------

  /** The decoded body of a UDR or PCF reply. */
  datatype PeerBody =
    | NoPeerBody
    | PeerProblem(problem: ProblemDetails)
    | PfdAppBody(app: PfdDataForApp)
    | PfdAppsBody(apps: seq<PfdDataForApp>)
    | AscBody(asc: AppSessionContext)
    | TiDataBody(data: TrafficInfluData)
    | TiDatasBody(datas: seq<TrafficInfluData>)

  datatype PeerReply = PeerReply(status: int, body: PeerBody)

  datatype Body =
    | NoBody
    | Problem(problem: ProblemDetails)
    | Peer(peer: PeerBody)
    | Reports(reports: map<FailureCode, PfdReport>)
    | Report(report: PfdReport)
    | Management(mng: PfdManagement)
    | Managements(mngs: seq<PfdManagement>)
    | Data(data: PfdData)
    | Subscription(sub: PfdSubscription)
    | TiSub(tiSub: TrafficInfluSub)
    | TiSubs(tiSubs: seq<TrafficInfluSub>)

  /**
   * The UDR's PFD data endpoints as the NEF sees them: the reply to each call
   * as a function of its arguments, given as a table of the replies to the
   * arguments a run uses and one reply to every other argument. The reply to
   * a PUT is taken to depend on the application identifier only.
   */
  datatype UdrPfds = UdrPfds(
    puts: map<string, int>,
    deletes: map<string, PeerReply>,
    gets: map<string, PeerReply>,
    pfdsGets: map<seq<string>, PeerReply>,
    other: PeerReply)
  {
    function appIdPut(a: string): int { if a in puts then puts[a] else other.status }
    function appIdDelete(a: string): PeerReply { if a in deletes then deletes[a] else other }
    function appIdGet(a: string): PeerReply { if a in gets then gets[a] else other }
    function pfdsGet(a: seq<string>): PeerReply { if a in pfdsGets then pfdsGets[a] else other }
  }

  /**
   * The reply bodies the handlers rely on: a 200 to a GET carries the PFD data
   * asked for (the Go code asserts the body's type and would panic otherwise).
   */
  ghost predicate WellTyped(u: UdrPfds)
  {
    (forall a :: u.appIdGet(a).status == StatusOK ==> u.appIdGet(a).body.PfdAppBody?) &&
    (forall ids :: u.pfdsGet(ids).status == StatusOK ==> u.pfdsGet(ids).body.PfdAppsBody?)
  }

  /**
   * The PCF's application session endpoints (Npcf_PolicyAuthorization,
   * 3GPP TS 29.514) as the NEF sees them, in the same table form. A POST's
   * reply comes with the identifier of the session it created; the update
   * the NEF sends with a PATCH is always empty, so that reply depends on the
   * session only.
   */
  datatype PcfAppSessions = PcfAppSessions(
    posts: map<AppSessionContext, (PeerReply, string)>,
    gets: map<string, PeerReply>,
    patches: map<string, PeerReply>,
    deletes: map<string, PeerReply>,
    other: PeerReply,
    otherSessID: string)
  {
    function postAppSessions(asc: AppSessionContext): (PeerReply, string)
    {
      if asc in posts then posts[asc] else (other, otherSessID)
    }
    function getAppSession(id: string): PeerReply { if id in gets then gets[id] else other }
    function patchAppSession(id: string): PeerReply { if id in patches then patches[id] else other }
    function deleteAppSession(id: string): PeerReply { if id in deletes then deletes[id] else other }
  }

  /** A 200 from the PCF to a read or an update carries the application session context. */
  ghost predicate PcfWellTyped(pcf: PcfAppSessions)
  {
    (forall id :: pcf.getAppSession(id).status == StatusOK ==> pcf.getAppSession(id).body.AscBody?) &&
    (forall id :: pcf.patchAppSession(id).status == StatusOK ==> pcf.patchAppSession(id).body.AscBody?)
  }

  /**
   * The UDR's traffic influence data endpoints (application data of
   * 3GPP TS 29.519), in the same table form; a PATCH is always sent empty.
   */
  datatype UdrInfluence = UdrInfluence(
    puts: map<(string, TrafficInfluData), PeerReply>,
    gets: map<seq<string>, PeerReply>,
    idGets: map<string, PeerReply>,
    patches: map<string, PeerReply>,
    deletes: map<string, PeerReply>,
    other: PeerReply)
  {
    function influenceDataPut(id: string, d: TrafficInfluData): PeerReply
    {
      if (id, d) in puts then puts[(id, d)] else other
    }
    function influenceDataGet(ids: seq<string>): PeerReply { if ids in gets then gets[ids] else other }
    function influenceDataIdGet(id: string): PeerReply { if id in idGets then idGets[id] else other }
    function influenceDataPatch(id: string): PeerReply { if id in patches then patches[id] else other }
    function influenceDataDelete(id: string): PeerReply { if id in deletes then deletes[id] else other }
  }

  /** A 200 from the UDR to a read or an update carries the traffic influence data. */
  ghost predicate UdrInfluenceWellTyped(u: UdrInfluence)
  {
    (forall ids :: u.influenceDataGet(ids).status == StatusOK ==> u.influenceDataGet(ids).body.TiDatasBody?) &&
    (forall id :: u.influenceDataIdGet(id).status == StatusOK ==> u.influenceDataIdGet(id).body.TiDataBody?) &&
    (forall id :: u.influenceDataPatch(id).status == StatusOK ==> u.influenceDataPatch(id).body.TiDataBody?)
  }

  /** HandlerResponse: status, the Location header when one is set, and the body. */
  datatype HandlerResponse = HandlerResponse(status: int, location: Option<string>, body: Body)

  function ProblemResponse(pd: ProblemDetails): (r: HandlerResponse)
  {
    HandlerResponse(pd.status, None, Problem(pd))
  }

  function PeerResponse(reply: PeerReply): (r: HandlerResponse)
  {
    HandlerResponse(reply.status, None, Peer(reply.body))
  }
}
