/**
 * The traffic influence handlers of the older processor generation
 * (internal/processor/ti_handler.go, 3GPP TS 29.122 clause 5.4), over the
 * NEF context of internal/context. Creation registers the AF context and the
 * subscription only when the peer accepts it; replacement, update and
 * deletion are stubs.
 *
 * The code reads three getters of the subscription record that
 * internal/context/af_subscription.go does not define (GetIsIndividualUEAddr,
 * GetAppSessID, GetInfluenceID); the model reads the fields they are named
 * after, the single-UE flag being the record's storage location "in the PCF".
 */
module TiHandler {
  import opened Common
  import opened Models
  import InternalFactory
  import opened AfSubscriptions
  import opened AfContexts
  import opened NefContexts
  import opened TiRules
  import opened PfdHandler

  const DetailAfNotFound := "Target AF is not existed"
  const DetailSubNotFound := "Target subscription is not existed"

  /** The base of the traffic influence resources: the SBI URI and the service prefix. */
  function TiBase(p: Processor): string
    requires InternalFactory.HasSbi(p.cfg)
  {
    InternalFactory.GetSbiUri(p.cfg) + InternalFactory.TraffInfluResUriPrefix
  }

  /** GetIsIndividualUEAddr: the subscription is kept at the PCF. */
  function IsIndividualUEAddr(s: AfSubscription): bool
    reads s
  {
    !s.storeLoc
  }

  // ---------------------------------------------------------------------------
  // Reading all subscriptions of an AF
  // ---------------------------------------------------------------------------

  /** The session identifiers of the subscriptions of `subs` kept at the PCF, in the order `order`. */
  function PcfIDs(subs: map<string, AfSubscription>, order: seq<string>): seq<string>
    reads subs.Values
    decreases |order|
  {
    if order == [] then []
    else
      var k := order[|order| - 1];
      PcfIDs(subs, order[..|order| - 1]) +
        (if k in subs && IsIndividualUEAddr(subs[k]) then [subs[k].appSessID] else [])
  }

  /** The influence identifiers of the subscriptions of `subs` kept at the UDR, in the order `order`. */
  function UdrIDs(subs: map<string, AfSubscription>, order: seq<string>): seq<string>
    reads subs.Values
    decreases |order|
  {
    if order == [] then []
    else
      var k := order[|order| - 1];
      UdrIDs(subs, order[..|order| - 1]) +
        (if k in subs && !IsIndividualUEAddr(subs[k]) then [subs[k].influID] else [])
  }

  /** The loop of GetTrafficInfluenceSubscription that sorts an AF's subscriptions by where they are kept. */
  method SplitSubs(subs: map<string, AfSubscription>)
    returns (inPcf: seq<string>, inUdr: seq<string>, ghost order: seq<string>)
    ensures IsEnumeration(order, subs.Keys)
    ensures inPcf == PcfIDs(subs, order) && inUdr == UdrIDs(subs, order)
  {
    inPcf, inUdr, order := [], [], [];
    var rest := subs.Keys;
    while rest != {}
      invariant rest <= subs.Keys
      invariant IsEnumeration(order, subs.Keys - rest)
      invariant inPcf == PcfIDs(subs, order) && inUdr == UdrIDs(subs, order)
      decreases rest
    {
      var k :| k in rest;
      EnumerationAppend(order, subs.Keys - rest, k);
      assert (order + [k])[..|order|] == order;
      var subsc := subs[k];
      if IsIndividualUEAddr(subsc) {
        inPcf := inPcf + [subsc.appSessID];
      } else {
        inUdr := inUdr + [subsc.influID];
      }
      assert subs.Keys - (rest - {k}) == (subs.Keys - rest) + {k};
      order, rest := order + [k], rest - {k};
    }
    assert subs.Keys - rest == subs.Keys;
  }

  /**
   * GetTrafficInfluenceSubscription: 404 for an unknown AF; otherwise the
   * listing of its subscriptions, sorted by where they are kept in the map
   * order `order`, the PCF ones read one by one and the UDR ones together;
   * the first refusal by a peer is passed on.
   */
  method GetTrafficInfluenceSubscription(p: Processor, afID: string)
    returns (rsp: HandlerResponse, ghost order: seq<string>)
    requires p.TiWired()
    ensures afID !in p.nefCtx.afCtxs ==> rsp == ProblemResponse(ProblemDataNotFound(DetailAfNotFound))
    ensures afID in p.nefCtx.afCtxs ==>
      var subs := p.nefCtx.afCtxs[afID].subsc;
      IsEnumeration(order, subs.Keys) &&
      rsp == ListAnswer(p.pcf, p.udrTi, TiBase(p), afID, PcfIDs(subs, order), UdrIDs(subs, order))
  {
    var afCtx := p.nefCtx.GetAfCtx(afID);
    if afCtx == null {
      return ProblemResponse(ProblemDataNotFound(DetailAfNotFound)), [];
    }
    var inPcf, inUdr;
    inPcf, inUdr, order := SplitSubs(afCtx.GetAllSubsc());
    var base := TiBase(p);
    var listing := CollectPcf(p.pcf, base, afID, inPcf);
    if listing.Refused? {
      return PeerResponse(listing.reply), order;
    }
    var tiSubList := listing.subs;
    if |inUdr| > 0 {
      var reply := p.udrTi.influenceDataGet(inUdr);
      if reply.status != StatusOK {
        return PeerResponse(reply), order;
      }
      var more := CollectUdr(reply.body.datas, base, afID);
      tiSubList := tiSubList + more;
    }
    rsp := HandlerResponse(StatusOK, None, TiSubs(tiSubList));
  }

  // ---------------------------------------------------------------------------
  // Creating a subscription
  // ---------------------------------------------------------------------------

  /**
   * pcfPostAppSessions: asks the PCF to create the application session; on
   * 201 the session identifier is recorded and the answer has no body,
   * otherwise the PCF's reply is passed on and the record is left alone.
   */
  method PcfPostAppSessions(p: Processor, afSubsc: AfSubscription, tiSub: TrafficInfluSub)
    returns (rsp: HandlerResponse)
    modifies afSubsc`appSessID
    ensures var (reply, sessID) := p.pcf.postAppSessions(PostAsc(tiSub));
      (reply.status == StatusCreated ==>
         afSubsc.appSessID == sessID && rsp == HandlerResponse(StatusCreated, None, NoBody)) &&
      (reply.status != StatusCreated ==>
         afSubsc.appSessID == old(afSubsc.appSessID) && rsp == PeerResponse(reply))
  {
    var asc := PostAsc(tiSub);
    var (reply, appSessID) := p.pcf.postAppSessions(asc);
    if reply.status == StatusCreated {
      afSubsc.SetAppSessID(appSessID);
      return HandlerResponse(StatusCreated, None, NoBody);
    }
    rsp := PeerResponse(reply);
  }

  /**
   * The answer to a creation request before any Location is set: the PCF's
   * for one UE, the UDR's for a group or any UE, and 400 for a request that
   * names neither (this generation's validateTrafficInfluenceData lets every
   * request through).
   */
  function RoutedAnswer(p: Processor, tiSub: TrafficInfluSub, influID: string): HandlerResponse
  {
    match RouteOf(tiSub)
    case ToPcf =>
      var reply := p.pcf.postAppSessions(PostAsc(tiSub)).0;
      if reply.status == StatusCreated then HandlerResponse(StatusCreated, None, NoBody) else PeerResponse(reply)
    case ToUdr =>
      PeerResponse(p.udrTi.influenceDataPut(influID, ToTiData(tiSub)))
    case Unroutable =>
      Malformed(DetailNoRoute)
  }

  /** A 2xx status up to 208: the creation is committed to the context. */
  predicate Accepted(status: int)
  {
    StatusOK <= status <= StatusAlreadyReported
  }

  /**
   * The creation ran with subscription record `s`: its identifiers are the
   * next values of the two counters, and the peer's part of it is recorded.
   */
  ghost predicate CreatedAs(p: Processor, tiSub: TrafficInfluSub, influID: string, s: AfSubscription,
                            numSubscID: nat, numCorreID: nat)
    reads s
  {
    s.subscID == NatToString(numSubscID) && s.notifCorreID == NatToString(numCorreID) &&
    s.appSessID == (if RouteOf(tiSub) == ToPcf && p.pcf.postAppSessions(PostAsc(tiSub)).0.status == StatusCreated
                    then p.pcf.postAppSessions(PostAsc(tiSub)).1 else "") &&
    s.influID == (if RouteOf(tiSub) == ToUdr then influID else "")
  }

  /**
   * The routing step of PostTrafficInfluenceSubscription: the answer is the
   * routed answer, and the record keeps the PCF's session identifier or the
   * influence identifier the request was stored under.
   */
  method Route(p: Processor, afSubsc: AfSubscription, tiSub: TrafficInfluSub, influID: string)
    returns (rsp: HandlerResponse)
    modifies afSubsc`appSessID, afSubsc`influID
    ensures rsp == RoutedAnswer(p, tiSub, influID)
    ensures afSubsc.appSessID ==
      (if RouteOf(tiSub) == ToPcf && p.pcf.postAppSessions(PostAsc(tiSub)).0.status == StatusCreated
       then p.pcf.postAppSessions(PostAsc(tiSub)).1 else old(afSubsc.appSessID))
    ensures afSubsc.influID == (if RouteOf(tiSub) == ToUdr then influID else old(afSubsc.influID))
  {
    if NamesUe(tiSub) {
      rsp := PcfPostAppSessions(p, afSubsc, tiSub);
    } else if NamesGroup(tiSub) {
      afSubsc.SetInfluenceID(influID);
      var tiData := ToTiData(tiSub);
      var reply := p.udrTi.influenceDataPut(influID, tiData);
      rsp := PeerResponse(reply);
    } else {
      rsp := Malformed(DetailNoRoute);
    }
  }

  /**
   * The allocations of a creation: the AF context of afID (stored or fresh)
   * and a fresh subscription record numbered by it and by the correlation
   * counter; nothing is stored.
   */
  method Draw(n: NefContext, afID: string) returns (afCtx: AfContext, s: AfSubscription)
    requires n.Valid()
    modifies n`numCorreID, n.AfObj(afID)
    ensures n.Valid() && n.afCtxs == old(n.afCtxs) && n.numCorreID == old(n.numCorreID) + 1
    ensures afID in n.afCtxs ==> afCtx == n.afCtxs[afID] && afCtx.subsc == old(afCtx.subsc)
    ensures afID !in n.afCtxs ==> fresh(afCtx) && afCtx.subsc == map[]
    ensures afCtx.afID == afID && afCtx.Valid() && afCtx.numSubscID >= 1
    ensures afCtx.numSubscID == (if afID in n.afCtxs then old(n.afCtxs[afID].numSubscID) + 1 else 1)
    ensures fresh(s) && s.subscID == NatToString(afCtx.numSubscID) && s.notifCorreID == NatToString(n.numCorreID)
    ensures s.appSessID == "" && s.influID == ""
  {
    afCtx := n.NewAfCtx(afID);
    s := n.NewAfSubsc(afCtx);
  }

  /**
   * The commit of an accepted creation: the AF context is stored under its
   * identifier, then the subscription under its own; the context stays valid.
   */
  method Commit(n: NefContext, afCtx: AfContext, s: AfSubscription)
    requires n.Valid() && afCtx.Valid()
    requires afCtx.numSubscID >= 1 && s.subscID == NatToString(afCtx.numSubscID)
    requires afCtx.afID in n.afCtxs ==> n.afCtxs[afCtx.afID] == afCtx
    modifies n`afCtxs, afCtx`subsc
    ensures n.Valid()
    ensures n.afCtxs == old(n.afCtxs)[afCtx.afID := afCtx]
    ensures afCtx.subsc == old(afCtx.subsc)[s.subscID := s]
  {
    assert Issued(s.subscID, afCtx.numSubscID);
    n.AddAfCtx(afCtx);
    afCtx.AddSubsc(s);
  }

  /**
   * PostTrafficInfluenceSubscription: the AF context (the stored one, or a
   * fresh one) draws a subscription identifier and the context a correlation
   * identifier before the request is routed, so both are used up whatever
   * happens next. The answer is the routed answer; when its status is in
   * 200..208 the AF context and the subscription are stored and the
   * subscription's URI is the Location, otherwise the AF contexts and
   * subscriptions are as before.
   */
  method PostTrafficInfluenceSubscription(p: Processor, afID: string, tiSub: TrafficInfluSub, influID: string)
    returns (rsp: HandlerResponse, ghost s: AfSubscription)
    requires p.nefCtx.Valid() && InternalFactory.HasSbi(p.cfg)
    modifies p.nefCtx`numCorreID, p.nefCtx`afCtxs, p.nefCtx.AfObj(afID)
    ensures p.nefCtx.Valid() && p.nefCtx.numCorreID == old(p.nefCtx.numCorreID) + 1
    ensures afID in old(p.nefCtx.afCtxs) ==>
      afID in p.nefCtx.afCtxs && p.nefCtx.afCtxs[afID] == old(p.nefCtx.afCtxs[afID]) &&
      p.nefCtx.afCtxs[afID].numSubscID == old(p.nefCtx.afCtxs[afID].numSubscID) + 1
    ensures fresh(s) && CreatedAs(p, tiSub, influID, s,
      if afID in old(p.nefCtx.afCtxs) then old(p.nefCtx.afCtxs[afID].numSubscID) + 1 else 1,
      p.nefCtx.numCorreID)
    ensures !Accepted(RoutedAnswer(p, tiSub, influID).status) ==>
      rsp == RoutedAnswer(p, tiSub, influID) && p.nefCtx.afCtxs == old(p.nefCtx.afCtxs) &&
      (afID in old(p.nefCtx.afCtxs) ==> p.nefCtx.afCtxs[afID].subsc == old(p.nefCtx.afCtxs[afID].subsc))
    ensures Accepted(RoutedAnswer(p, tiSub, influID).status) ==>
      rsp == RoutedAnswer(p, tiSub, influID).(location := Some(TiSubURI(TiBase(p), afID, s.subscID))) &&
      afID in p.nefCtx.afCtxs && p.nefCtx.afCtxs == old(p.nefCtx.afCtxs)[afID := p.nefCtx.afCtxs[afID]] &&
      p.nefCtx.afCtxs[afID].subsc ==
        (if afID in old(p.nefCtx.afCtxs) then old(p.nefCtx.afCtxs[afID].subsc) else map[])[s.subscID := s]
  {
    var afCtx, afSubsc := Draw(p.nefCtx, afID);
    s := afSubsc;
    rsp := Route(p, afSubsc, tiSub, influID);
    if StatusOK <= rsp.status <= StatusAlreadyReported {
      Commit(p.nefCtx, afCtx, afSubsc);
      var locUri := InternalFactory.GetSbiUri(p.cfg) + InternalFactory.TraffInfluResUriPrefix + "/" + afID +
                    "/subscriptions/" + afSubsc.GetSubscID();
      rsp := rsp.(location := Some(locUri));
    }
  }

  // ---------------------------------------------------------------------------
  // Reading one subscription
  // ---------------------------------------------------------------------------

  /** What a handler comes to: an answer, or a nil dereference that aborts it. */
  datatype Outcome = Answer(rsp: HandlerResponse) | NilDereference

  /**
   * GetIndividualTrafficInfluenceSubscription as written: the check after
   * the subscription lookup tests the AF context again, which is known to be
   * present, so an unknown subscription is not answered with 404 but
   * dereferenced.
   */
  method GetIndividualAsWritten(p: Processor, afID: string, subscID: string) returns (out: Outcome)
    requires p.TiWired()
    ensures afID !in p.nefCtx.afCtxs ==> out == Answer(ProblemResponse(ProblemDataNotFound(DetailAfNotFound)))
    ensures afID in p.nefCtx.afCtxs && subscID !in p.nefCtx.afCtxs[afID].subsc ==> out == NilDereference
    ensures afID in p.nefCtx.afCtxs && subscID in p.nefCtx.afCtxs[afID].subsc ==>
      var s := p.nefCtx.afCtxs[afID].subsc[subscID];
      out == Answer(IndividualAnswer(p.pcf, p.udrTi, TiSubURI(TiBase(p), afID, subscID),
                                     IsIndividualUEAddr(s), s.appSessID, s.influID))
  {
    var afCtx := p.nefCtx.GetAfCtx(afID);
    if afCtx == null {
      return Answer(ProblemResponse(ProblemDataNotFound(DetailAfNotFound)));
    }
    var subsc := afCtx.GetSubsc(subscID);
    // the re-test of afCtx never fires here
    if subsc == null {
      return NilDereference;
    }
    var rsp := IndividualRead(p, afID, subscID, subsc);
    out := Answer(rsp);
  }

  /**
   * GetIndividualTrafficInfluenceSubscription with the second check testing
   * the subscription, as its detail text intends: 404 for an unknown AF, then
   * for an unknown subscription; otherwise the peer the record names is
   * asked, and its refusal or its data, with the subscription's URI as Self,
   * is the answer.
   */
  method GetIndividualTrafficInfluenceSubscription(p: Processor, afID: string, subscID: string)
    returns (rsp: HandlerResponse)
    requires p.TiWired()
    ensures afID !in p.nefCtx.afCtxs ==> rsp == ProblemResponse(ProblemDataNotFound(DetailAfNotFound))
    ensures afID in p.nefCtx.afCtxs && subscID !in p.nefCtx.afCtxs[afID].subsc ==>
      rsp == ProblemResponse(ProblemDataNotFound(DetailSubNotFound))
    ensures afID in p.nefCtx.afCtxs && subscID in p.nefCtx.afCtxs[afID].subsc ==>
      var s := p.nefCtx.afCtxs[afID].subsc[subscID];
      rsp == IndividualAnswer(p.pcf, p.udrTi, TiSubURI(TiBase(p), afID, subscID),
                              IsIndividualUEAddr(s), s.appSessID, s.influID)
  {
    var afCtx := p.nefCtx.GetAfCtx(afID);
    if afCtx == null {
      return ProblemResponse(ProblemDataNotFound(DetailAfNotFound));
    }
    var subsc := afCtx.GetSubsc(subscID);
    if subsc == null {
      return ProblemResponse(ProblemDataNotFound(DetailSubNotFound));
    }
    rsp := IndividualRead(p, afID, subscID, subsc);
  }

  /** The peer part of the individual read, for the stored record `subsc`. */
  method IndividualRead(p: Processor, afID: string, subscID: string, subsc: AfSubscription)
    returns (rsp: HandlerResponse)
    requires p.TiWired()
    ensures rsp == IndividualAnswer(p.pcf, p.udrTi, TiSubURI(TiBase(p), afID, subscID),
                                    IsIndividualUEAddr(subsc), subsc.appSessID, subsc.influID)
  {
    var uri := InternalFactory.GetSbiUri(p.cfg) + InternalFactory.TraffInfluResUriPrefix + "/" + afID +
               "/subscriptions/" + subscID;
    assert uri == TiSubURI(TiBase(p), afID, subscID);
    if IsIndividualUEAddr(subsc) {
      var reply := p.pcf.getAppSession(subsc.appSessID);
      if reply.status != StatusOK {
        return PeerResponse(reply);
      }
      var tiSub := FromAppSession(reply.body.asc);
      rsp := HandlerResponse(StatusOK, None, TiSub(tiSub.(self := uri)));
    } else {
      var reply := p.udrTi.influenceDataIdGet(subsc.influID);
      if reply.status != StatusOK {
        return PeerResponse(reply);
      }
      var tiSub := FromTiData(reply.body.data);
      rsp := HandlerResponse(StatusOK, None, TiSub(tiSub.(self := uri)));
    }
  }

  // ---------------------------------------------------------------------------
  // Stubs
  // ---------------------------------------------------------------------------

  /** PutIndividualTrafficInfluenceSubscription: 200 without a body; nothing changes. */
  function PutIndividualTrafficInfluenceSubscription(p: Processor, afID: string, subscID: string,
                                                     tiSub: TrafficInfluSub): (rsp: HandlerResponse)
    ensures rsp.status == StatusOK && rsp.location.None? && rsp.body.NoBody?
  {
    HandlerResponse(StatusOK, None, NoBody)
  }

  /** PatchIndividualTrafficInfluenceSubscription: 200 without a body; nothing changes. */
  function PatchIndividualTrafficInfluenceSubscription(p: Processor, afID: string, subscID: string,
                                                       tiSubPatch: TrafficInfluSubPatch): (rsp: HandlerResponse)
    ensures rsp.status == StatusOK && rsp.location.None? && rsp.body.NoBody?
  {
    HandlerResponse(StatusOK, None, NoBody)
  }

  /** DeleteIndividualTrafficInfluenceSubscription: 200 without a body; nothing changes. */
  function DeleteIndividualTrafficInfluenceSubscription(p: Processor, afID: string, subscID: string): (rsp: HandlerResponse)
    ensures rsp.status == StatusOK && rsp.location.None? && rsp.body.NoBody?
  {
    HandlerResponse(StatusOK, None, NoBody)
  }
}
