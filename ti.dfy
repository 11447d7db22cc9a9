/**
 * The traffic influence handlers of the newer processor generation
 * (internal/sbi/processor/ti.go, 3GPP TS 29.122 clause 5.4). A subscription
 * for one UE is kept at the PCF as an application session, one for a group
 * or any UE at the UDR as influence data; the NEF keeps only the record of
 * where it went, and every later read, update or delete is sent to the peer
 * that record names.
 */
module Ti {
  import opened Common
  import opened Models
  import PkgFactory
  import opened TiRules
  import opened SbiProcessor

  const DetailAfNotFound := "AF is not found"
  const DetailSubNotFound := "Subscription is not found"

  /** The base of the traffic influence resources: the configured URI of that service. */
  function TiBase(p: Processor): string
  {
    PkgFactory.ServiceUri(p.cfg, PkgFactory.ServiceTraffInflu)
  }

  /**
   * What the context's allocations return for one creation request: whether
   * NewAf yields a record for an AF not yet known, and the identifier and
   * storage flag of the subscription NewSub yields, if any.
   */
  datatype Allocation = Allocation(newAf: bool, newSub: Option<SubAlloc>)

  datatype SubAlloc = SubAlloc(subID: string, isIndividualUEAddr: bool)

  // ---------------------------------------------------------------------------
  // Reading all subscriptions of an AF
  // ---------------------------------------------------------------------------

  /** The session identifiers of the subscriptions of `subs` kept at the PCF, in the order `order`. */
  function PcfIDs(subs: map<string, TiSubscription>, order: seq<string>): seq<string>
    reads subs.Values
    decreases |order|
  {
    if order == [] then []
    else
      var k := order[|order| - 1];
      PcfIDs(subs, order[..|order| - 1]) +
        (if k in subs && subs[k].isIndividualUEAddr then [subs[k].appSessID] else [])
  }

  /** The influence identifiers of the subscriptions of `subs` kept at the UDR, in the order `order`. */
  function UdrIDs(subs: map<string, TiSubscription>, order: seq<string>): seq<string>
    reads subs.Values
    decreases |order|
  {
    if order == [] then []
    else
      var k := order[|order| - 1];
      UdrIDs(subs, order[..|order| - 1]) +
        (if k in subs && !subs[k].isIndividualUEAddr then [subs[k].influID] else [])
  }

  /** Every subscription in the order is counted on exactly one side. */
  lemma {:induction false} SplitCounts(subs: map<string, TiSubscription>, order: seq<string>)
    requires forall k :: k in order ==> k in subs
    ensures |PcfIDs(subs, order)| + |UdrIDs(subs, order)| == |order|
    decreases |order|
  {
    if order != [] {
      SplitCounts(subs, order[..|order| - 1]);
    }
  }

  /** The loop of GetTrafficInfluenceSubscription that sorts an AF's subscriptions by where they are kept. */
  method SplitSubs(subs: map<string, TiSubscription>)
    returns (inPcf: seq<string>, inUdr: seq<string>, ghost order: seq<string>)
    ensures IsEnumeration(order, subs.Keys)
    ensures inPcf == PcfIDs(subs, order) && inUdr == UdrIDs(subs, order)
  {
    inPcf, inUdr, order := [], [], [];
    var rest := subs.Keys;
    while rest != {}
      invariant rest <= subs.Keys
      invariant IsEnumeration(order, subs.Keys - rest)
      invariant inPcf == PcfIDs(subs, order) && inUdr == UdrIDs(subs, order)
      decreases rest
    {
      var k :| k in rest;
      EnumerationAppend(order, subs.Keys - rest, k);
      assert (order + [k])[..|order|] == order;
      var sub := subs[k];
      if sub.isIndividualUEAddr {
        inPcf := inPcf + [sub.appSessID];
      } else {
        inUdr := inUdr + [sub.influID];
      }
      assert subs.Keys - (rest - {k}) == (subs.Keys - rest) + {k};
      order, rest := order + [k], rest - {k};
    }
    assert subs.Keys - rest == subs.Keys;
  }

  /**
   * GetTrafficInfluenceSubscription: 404 for an unknown AF; otherwise the
   * listing of its subscriptions, sorted by where they are kept in the map
   * order `order`: the PCF ones first, each read from its session, then the
   * UDR ones read together; the first refusal by a peer is passed on.
   */
  method GetTrafficInfluenceSubscription(p: Processor, afID: string)
    returns (rsp: HandlerResponse, ghost order: seq<string>)
    requires p.Wired()
    ensures afID !in p.ctx.afs ==> rsp == ProblemResponse(ProblemDataNotFound(DetailAfNotFound))
    ensures afID in p.ctx.afs ==>
      var subs := p.ctx.afs[afID].subs;
      IsEnumeration(order, subs.Keys) &&
      rsp == ListAnswer(p.pcf, p.udrTi, TiBase(p), afID, PcfIDs(subs, order), UdrIDs(subs, order))
  {
    var af := p.ctx.GetAf(afID);
    if af == null {
      return ProblemResponse(ProblemDataNotFound(DetailAfNotFound)), [];
    }
    var inPcf, inUdr;
    inPcf, inUdr, order := SplitSubs(af.subs);
    var base := TiBase(p);
    var listing := CollectPcf(p.pcf, base, afID, inPcf);
    if listing.Refused? {
      return PeerResponse(listing.reply), order;
    }
    var tiSubList := listing.subs;
    if |inUdr| > 0 {
      var reply := p.udrTi.influenceDataGet(inUdr);
      if reply.status != StatusOK {
        return PeerResponse(reply), order;
      }
      var more := CollectUdr(reply.body.datas, base, afID);
      tiSubList := tiSubList + more;
    }
    rsp := HandlerResponse(StatusOK, None, TiSubs(tiSubList));
  }

  // ---------------------------------------------------------------------------
  // Creating a subscription
  // ---------------------------------------------------------------------------

  /**
   * pcfPostAppSessions: asks the PCF to create the application session; on
   * 201 the session identifier is recorded and the answer has no body,
   * otherwise the PCF's reply is passed on and the record is left alone.
   */
  method PcfPostAppSessions(p: Processor, afSub: TiSubscription, tiSub: TrafficInfluSub)
    returns (rsp: HandlerResponse)
    modifies afSub`appSessID
    ensures var (reply, sessID) := p.pcf.postAppSessions(PostAsc(tiSub));
      (reply.status == StatusCreated ==>
         afSub.appSessID == sessID && rsp == HandlerResponse(StatusCreated, None, NoBody)) &&
      (reply.status != StatusCreated ==>
         afSub.appSessID == old(afSub.appSessID) && rsp == PeerResponse(reply))
  {
    var asc := PostAsc(tiSub);
    var (reply, appSessID) := p.pcf.postAppSessions(asc);
    if reply.status == StatusCreated {
      afSub.appSessID := appSessID;
      return HandlerResponse(StatusCreated, None, NoBody);
    }
    rsp := PeerResponse(reply);
  }

  /** The status the peer chosen by the routing answers a creation with. */
  function CreateStatus(p: Processor, tiSub: TrafficInfluSub, influID: string): int
  {
    if NamesUe(tiSub) then p.pcf.postAppSessions(PostAsc(tiSub)).0.status
    else p.udrTi.influenceDataPut(influID, ToTiData(tiSub)).status
  }

  /** The allocations give a record to store the subscription in. */
  predicate Allocated(p: Processor, afID: string, alloc: Allocation)
    reads p.ctx
  {
    (afID in p.ctx.afs || alloc.newAf) && alloc.newSub.Some?
  }

  /** The creation stored `s` for the request under the allocated identifier, in the record of AF afID. */
  ghost predicate StoredAs(p: Processor, tiSub: TrafficInfluSub, influID: string, a: SubAlloc, s: TiSubscription)
    reads s
  {
    s.subID == a.subID && s.isIndividualUEAddr == a.isIndividualUEAddr &&
    s.appSessID == (if NamesUe(tiSub) && p.pcf.postAppSessions(PostAsc(tiSub)).0.status == StatusCreated
                    then p.pcf.postAppSessions(PostAsc(tiSub)).1 else "") &&
    s.influID == (if NamesUe(tiSub) then "" else influID)
  }

  /**
   * The routing step of PostTrafficInfluenceSubscription for a request that
   * names its target: the peer's status, and the record keeps the PCF's
   * session identifier or the influence identifier.
   */
  method Route(p: Processor, afSub: TiSubscription, tiSub: TrafficInfluSub, influID: string) returns (status: int)
    requires NamesUe(tiSub) || NamesGroup(tiSub)
    modifies afSub`appSessID, afSub`influID
    ensures status == CreateStatus(p, tiSub, influID)
    ensures afSub.appSessID ==
      (if NamesUe(tiSub) && p.pcf.postAppSessions(PostAsc(tiSub)).0.status == StatusCreated
       then p.pcf.postAppSessions(PostAsc(tiSub)).1 else old(afSub.appSessID))
    ensures afSub.influID == (if NamesUe(tiSub) then old(afSub.influID) else influID)
  {
    if NamesUe(tiSub) {
      var r := PcfPostAppSessions(p, afSub, tiSub);
      status := r.status;
    } else {
      afSub.influID := influID;
      var tiData := ToTiData(tiSub);
      var reply := p.udrTi.influenceDataPut(afSub.influID, tiData);
      status := reply.status;
    }
  }

  /**
   * The store of a created subscription: the record joins its AF's
   * subscriptions and the AF record joins the context (AddAf); the context
   * stays valid.
   */
  method Store(ctx: TiContext, af: TiAf, s: TiSubscription)
    requires ctx.Valid()
    requires af.afID in ctx.afs ==> ctx.afs[af.afID] == af
    requires forall id :: id in af.subs ==> af.subs[id].subID == id
    modifies ctx`afs, af`subs
    ensures ctx.Valid()
    ensures ctx.afs == old(ctx.afs)[af.afID := af]
    ensures af.subs == old(af.subs)[s.subID := s]
  {
    af.subs := af.subs[s.subID := s];
    ctx.afs := ctx.afs[af.afID := af];
  }

  /**
   * PostTrafficInfluenceSubscription: a request that fails a check is
   * answered with that check's 400, and one the context cannot allocate for
   * with 500; in both cases nothing is stored. Otherwise the request goes to
   * the PCF (one UE) or to the UDR under the new influence identifier
   * `influID`, and, whatever the peer answers, the subscription is stored
   * under its identifier in the AF's record, which joins the context, and the
   * answer carries the peer's status, the subscription's URI as Location and
   * the request with that URI as Self.
   */
  method PostTrafficInfluenceSubscription(p: Processor, afID: string, tiSub: TrafficInfluSub,
                                          alloc: Allocation, influID: string)
    returns (rsp: HandlerResponse)
    requires p.ctx.Valid()
    modifies p.ctx, p.ctx.AfObj(afID)
    ensures p.ctx.Valid()
    ensures ValidateTrafficInfluenceData(tiSub).Some? ==>
      rsp == ValidateTrafficInfluenceData(tiSub).value && p.ctx.afs == old(p.ctx.afs) &&
      (afID in p.ctx.afs ==> p.ctx.afs[afID].subs == old(p.ctx.afs[afID].subs))
    ensures ValidateTrafficInfluenceData(tiSub).None? && !old(Allocated(p, afID, alloc)) ==>
      rsp == ProblemResponse(ProblemSystemFailure(DetailNoResource)) && p.ctx.afs == old(p.ctx.afs) &&
      (afID in p.ctx.afs ==> p.ctx.afs[afID].subs == old(p.ctx.afs[afID].subs))
    ensures ValidateTrafficInfluenceData(tiSub).None? && old(Allocated(p, afID, alloc)) ==>
      var a := alloc.newSub.value;
      var loc := TiSubURI(TiBase(p), afID, a.subID);
      afID in p.ctx.afs && p.ctx.afs == old(p.ctx.afs)[afID := p.ctx.afs[afID]] &&
      (afID in old(p.ctx.afs) ==> p.ctx.afs[afID] == old(p.ctx.afs[afID])) &&
      a.subID in p.ctx.afs[afID].subs &&
      fresh(p.ctx.afs[afID].subs[a.subID]) &&
      StoredAs(p, tiSub, influID, a, p.ctx.afs[afID].subs[a.subID]) &&
      p.ctx.afs[afID].subs ==
        (if afID in old(p.ctx.afs) then old(p.ctx.afs[afID].subs) else map[])[a.subID := p.ctx.afs[afID].subs[a.subID]] &&
      rsp == HandlerResponse(CreateStatus(p, tiSub, influID), Some(loc), TiSub(tiSub.(self := loc)))
  {
    var invalid := ValidateTrafficInfluenceData(tiSub);
    if invalid.Some? {
      return invalid.value;
    }
    var af := p.ctx.GetAf(afID);
    if af == null {
      if !alloc.newAf {
        return ProblemResponse(ProblemSystemFailure(DetailNoResource));
      }
      af := new TiAf(afID);
    }
    if alloc.newSub.None? {
      return ProblemResponse(ProblemSystemFailure(DetailNoResource));
    }
    var afSub := new TiSubscription(alloc.newSub.value.subID, alloc.newSub.value.isIndividualUEAddr);
    var status := Route(p, afSub, tiSub, influID);
    Store(p.ctx, af, afSub);
    var locUri := TiSubURI(TiBase(p), afID, afSub.subID);
    rsp := HandlerResponse(status, Some(locUri), TiSub(tiSub.(self := locUri)));
  }

  // ---------------------------------------------------------------------------
  // Reading, replacing, updating and deleting one subscription
  // ---------------------------------------------------------------------------

  /**
   * GetIndividualTrafficInfluenceSubscription: 404 for an unknown AF, then
   * for an unknown subscription; otherwise the peer the stored record names
   * is asked, and its refusal or its data, with the subscription's URI as
   * Self, is the answer.
   */
  method GetIndividualTrafficInfluenceSubscription(p: Processor, afID: string, subID: string)
    returns (rsp: HandlerResponse)
    requires p.Wired()
    ensures afID !in p.ctx.afs ==> rsp == ProblemResponse(ProblemDataNotFound(DetailAfNotFound))
    ensures afID in p.ctx.afs && subID !in p.ctx.afs[afID].subs ==>
      rsp == ProblemResponse(ProblemDataNotFound(DetailSubNotFound))
    ensures afID in p.ctx.afs && subID in p.ctx.afs[afID].subs ==>
      var s := p.ctx.afs[afID].subs[subID];
      rsp == IndividualAnswer(p.pcf, p.udrTi, TiSubURI(TiBase(p), afID, subID),
                              s.isIndividualUEAddr, s.appSessID, s.influID)
  {
    var af := p.ctx.GetAf(afID);
    if af == null {
      return ProblemResponse(ProblemDataNotFound(DetailAfNotFound));
    }
    if subID !in af.subs {
      return ProblemResponse(ProblemDataNotFound(DetailSubNotFound));
    }
    var sub := af.subs[subID];
    if sub.isIndividualUEAddr {
      var reply := p.pcf.getAppSession(sub.appSessID);
      if reply.status != StatusOK {
        return PeerResponse(reply);
      }
      var tiSub := FromAppSession(reply.body.asc);
      tiSub := tiSub.(self := TiSubURI(TiBase(p), afID, subID));
      rsp := HandlerResponse(StatusOK, None, TiSub(tiSub));
    } else {
      var reply := p.udrTi.influenceDataIdGet(sub.influID);
      if reply.status != StatusOK {
        return PeerResponse(reply);
      }
      var tiSub := FromTiData(reply.body.data);
      tiSub := tiSub.(self := TiSubURI(TiBase(p), afID, subID));
      rsp := HandlerResponse(StatusOK, None, TiSub(tiSub));
    }
  }

  /** PutIndividualTrafficInfluenceSubscription: 200 without a body, whatever is asked. */
  function PutIndividualTrafficInfluenceSubscription(p: Processor, afID: string, subID: string,
                                                     tiSub: TrafficInfluSub): (rsp: HandlerResponse)
    ensures rsp.status == StatusOK && rsp.location.None? && rsp.body.NoBody?
  {
    HandlerResponse(StatusOK, None, NoBody)
  }

  /**
   * PatchIndividualTrafficInfluenceSubscription: the same 404s as a read;
   * otherwise the peer the stored record names receives an empty update,
   * whatever the request holds, and its refusal or its data is the answer.
   */
  method PatchIndividualTrafficInfluenceSubscription(p: Processor, afID: string, subID: string,
                                                     tiSubPatch: TrafficInfluSubPatch)
    returns (rsp: HandlerResponse)
    requires p.Wired()
    ensures afID !in p.ctx.afs ==> rsp == ProblemResponse(ProblemDataNotFound(DetailAfNotFound))
    ensures afID in p.ctx.afs && subID !in p.ctx.afs[afID].subs ==>
      rsp == ProblemResponse(ProblemDataNotFound(DetailSubNotFound))
    ensures afID in p.ctx.afs && subID in p.ctx.afs[afID].subs ==>
      var s := p.ctx.afs[afID].subs[subID];
      rsp == PatchAnswer(p.pcf, p.udrTi, s.isIndividualUEAddr, s.appSessID, s.influID)
  {
    var af := p.ctx.GetAf(afID);
    if af == null {
      return ProblemResponse(ProblemDataNotFound(DetailAfNotFound));
    }
    if subID !in af.subs {
      return ProblemResponse(ProblemDataNotFound(DetailSubNotFound));
    }
    var sub := af.subs[subID];
    if sub.isIndividualUEAddr {
      var reply := p.pcf.patchAppSession(sub.appSessID);
      if reply.status != StatusOK {
        return PeerResponse(reply);
      }
      rsp := HandlerResponse(StatusOK, None, TiSub(FromAppSession(reply.body.asc)));
    } else {
      var reply := p.udrTi.influenceDataPatch(sub.influID);
      if reply.status != StatusOK {
        return PeerResponse(reply);
      }
      rsp := HandlerResponse(StatusOK, None, TiSub(FromTiData(reply.body.data)));
    }
  }

  /**
   * DeleteIndividualTrafficInfluenceSubscription: the same 404s as a read;
   * otherwise the peer the stored record names is asked to delete. When it
   * answers 200 the answer is 200 and the record stays; any other reply is
   * passed on and the record is dropped from the AF.
   */
  method DeleteIndividualTrafficInfluenceSubscription(p: Processor, afID: string, subID: string)
    returns (rsp: HandlerResponse)
    requires p.ctx.Valid()
    modifies p.ctx.AfObj(afID)
    ensures p.ctx.Valid() && p.ctx.afs == old(p.ctx.afs)
    ensures afID !in p.ctx.afs ==> rsp == ProblemResponse(ProblemDataNotFound(DetailAfNotFound))
    ensures afID in p.ctx.afs && subID !in old(p.ctx.afs[afID].subs) ==>
      rsp == ProblemResponse(ProblemDataNotFound(DetailSubNotFound)) &&
      p.ctx.afs[afID].subs == old(p.ctx.afs[afID].subs)
    ensures afID in p.ctx.afs && subID in old(p.ctx.afs[afID].subs) ==>
      var s := old(p.ctx.afs[afID].subs[subID]);
      var reply := DeleteReply(p.pcf, p.udrTi, s.isIndividualUEAddr, old(s.appSessID), old(s.influID));
      (reply.status == StatusOK ==>
         rsp == HandlerResponse(StatusOK, None, NoBody) && p.ctx.afs[afID].subs == old(p.ctx.afs[afID].subs)) &&
      (reply.status != StatusOK ==>
         rsp == PeerResponse(reply) && p.ctx.afs[afID].subs == old(p.ctx.afs[afID].subs) - {subID})
  {
    var af := p.ctx.GetAf(afID);
    if af == null {
      return ProblemResponse(ProblemDataNotFound(DetailAfNotFound));
    }
    if subID !in af.subs {
      return ProblemResponse(ProblemDataNotFound(DetailSubNotFound));
    }
    var sub := af.subs[subID];
    var reply;
    if sub.isIndividualUEAddr {
      reply := p.pcf.deleteAppSession(sub.appSessID);
    } else {
      reply := p.udrTi.influenceDataDelete(sub.influID);
    }
    if reply.status != StatusOK {
      af.subs := af.subs - {subID};
      return PeerResponse(reply);
    }
    rsp := HandlerResponse(StatusOK, None, NoBody);
  }
}
