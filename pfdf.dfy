/**
 * The PFD functions service of the newer processor generation
 * (internal/sbi/processor/pfdf.go, Nnef_PFDmanagement of 3GPP TS 29.551). It
 * behaves as the older one except that subscription resources are built on
 * the configured URI of the nnef-pfdmanagement service.
 */
module Pfdf {
  import opened Common
  import opened Models
  import PkgFactory
  import opened PfdSubIndex
  import opened PfdNotifier
  import opened SbiProcessor

  const DetailNoNotifyUri := "Absent of Notify URI"
  const DetailSubNotFound := "Subscription not found"

  /** genPfdSubscriptionURI: the resource of one PFD subscription. */
  function GenPfdSubscriptionURI(cfg: PkgFactory.Config, subID: string): string
  {
    PkgFactory.ServiceUri(cfg, PkgFactory.ServiceNefPfd) + "/subscriptions/" + subID
  }

  /**
   * The subscription URI lies below the SBI URI, inside the
   * nnef-pfdmanagement service, and its last segment is the subscription
   * identifier whenever that identifier has no slash.
   */
  lemma SubscriptionURIEndsWithID(cfg: PkgFactory.Config, subID: string)
    requires NoSlash(subID)
    ensures GenPfdSubscriptionURI(cfg, subID) ==
            PkgFactory.SbiUri(cfg) + PkgFactory.NefPfdMngResUriPrefix + "/subscriptions/" + subID
    ensures LastSegment(GenPfdSubscriptionURI(cfg, subID)) == subID
  {
    var subs := PkgFactory.ServiceUri(cfg, PkgFactory.ServiceNefPfd) + "/subscriptions";
    assert GenPfdSubscriptionURI(cfg, subID) == subs + "/" + subID;
    LastSegmentOfAppend(subs, subID);
  }

  /**
   * GetApplicationsPFD: the UDR's reply to a read of the listed applications,
   * status and body unchanged; a successful reply carries PFD data.
   */
  function GetApplicationsPFD(p: Processor, appIDs: seq<string>): (rsp: HandlerResponse)
    ensures rsp.status == p.udr.pfdsGet(appIDs).status && rsp.location.None?
    ensures rsp.body == Peer(p.udr.pfdsGet(appIDs).body)
    ensures WellTyped(p.udr) && rsp.status == StatusOK ==> rsp.body.peer.PfdAppsBody?
  {
    PeerResponse(p.udr.pfdsGet(appIDs))
  }

  /** GetIndividualApplicationPFD: the UDR's reply to a read of one application, unchanged. */
  function GetIndividualApplicationPFD(p: Processor, appID: string): (rsp: HandlerResponse)
    ensures rsp.status == p.udr.appIdGet(appID).status && rsp.location.None?
    ensures rsp.body == Peer(p.udr.appIdGet(appID).body)
    ensures WellTyped(p.udr) && rsp.status == StatusOK ==> rsp.body.peer.PfdAppBody?
  {
    PeerResponse(p.udr.appIdGet(appID))
  }

  /**
   * PostPFDSubscriptions: a subscription without a notification URI is
   * refused with 404 and the notifier is left alone; any other is registered
   * under the next subscription number and answered with 201, the request as
   * body and a Location whose last segment is the new identifier.
   */
  method PostPFDSubscriptions(p: Processor, pfdSubsc: PfdSubscription) returns (rsp: HandlerResponse)
    requires p.notifier.Valid()
    modifies p.notifier
    ensures p.notifier.Valid()
    ensures pfdSubsc.notifyUri == "" ==>
      rsp == ProblemResponse(ProblemDataNotFound(DetailNoNotifyUri)) && unchanged(p.notifier)
    ensures pfdSubsc.notifyUri != "" ==>
      var subID := NatToString(p.notifier.numPfdSubID);
      p.notifier.numPfdSubID == old(p.notifier.numPfdSubID) + 1 &&
      rsp == HandlerResponse(StatusCreated, Some(GenPfdSubscriptionURI(p.cfg, subID)), Subscription(pfdSubsc)) &&
      LastSegment(rsp.location.value) == subID &&
      subID !in old(p.notifier.subIdToURI) &&
      p.notifier.subIdToURI == old(p.notifier.subIdToURI)[subID := pfdSubsc.notifyUri] &&
      p.notifier.appIdToSubIDs == Indexed(old(p.notifier.appIdToSubIDs), pfdSubsc.applicationIds, subID)
  {
    if |pfdSubsc.notifyUri| == 0 {
      return ProblemResponse(ProblemDataNotFound(DetailNoNotifyUri));
    }
    var subID := p.notifier.AddPfdSub(pfdSubsc);
    SubscriptionURIEndsWithID(p.cfg, subID);
    rsp := HandlerResponse(StatusCreated, Some(GenPfdSubscriptionURI(p.cfg, subID)), Subscription(pfdSubsc));
  }

  /**
   * DeleteIndividualPFDSubscription: an unknown subscription gives 404
   * "Subscription not found" and changes nothing; a known one is dropped from
   * the URI map and from every application's subscriber set, answered 204.
   */
  method DeleteIndividualPFDSubscription(p: Processor, subscID: string) returns (rsp: HandlerResponse)
    requires p.notifier.Valid()
    modifies p.notifier
    ensures p.notifier.Valid()
    ensures subscID !in old(p.notifier.subIdToURI) ==>
      rsp == ProblemResponse(ProblemDataNotFound(DetailSubNotFound)) &&
      p.notifier.numPfdSubID == old(p.notifier.numPfdSubID) &&
      p.notifier.subIdToURI == old(p.notifier.subIdToURI) &&
      p.notifier.appIdToSubIDs == old(p.notifier.appIdToSubIDs)
    ensures subscID in old(p.notifier.subIdToURI) ==>
      rsp == HandlerResponse(StatusNoContent, None, NoBody) &&
      p.notifier.numPfdSubID == old(p.notifier.numPfdSubID) &&
      p.notifier.subIdToURI == old(p.notifier.subIdToURI) - {subscID} &&
      p.notifier.appIdToSubIDs == Unindexed(old(p.notifier.appIdToSubIDs), subscID)
  {
    var err := p.notifier.DeletePfdSub(subscID);
    if err.Some? {
      return ProblemResponse(ProblemDataNotFound(err.value));
    }
    rsp := HandlerResponse(StatusNoContent, None, NoBody);
  }
}
