/**
 * A traffic influence subscription record of the older context generation
 * (internal/context/af_subscription.go). The identifiers assigned at creation
 * have no setters, so they are constants here; the remaining fields are
 * overwritten one at a time by the setters.
 */
module AfSubscriptions {
  import opened Models

  class AfSubscription {
    const subscID: string
    const notifCorreID: string
    /** Used when the subscription targets a single UE (kept at the PCF). */
    var appSessID: string
    /** Used when the subscription targets a group or any UE (kept at the UDR). */
    var influID: string
    var notificationURI: string
    var tiSub: TrafficInfluSub
    /** false: stored in the PCF; true: stored in the UDR. */
    var storeLoc: bool

    /** The record newSubsc allocates: both identifiers set, everything else zero. */
    constructor (subscID: string, notifCorreID: string)
      ensures this.subscID == subscID && this.notifCorreID == notifCorreID
      ensures appSessID == "" && influID == "" && notificationURI == ""
      ensures tiSub == EmptyTiSub && !storeLoc
    {
      this.subscID := subscID;
      this.notifCorreID := notifCorreID;
      appSessID := "";
      influID := "";
      notificationURI := "";
      tiSub := EmptyTiSub;
      storeLoc := false;
    }

    function GetSubscID(): string
    {
      subscID
    }

    function GetNotifCorreID(): string
    {
      notifCorreID
    }

    method SetAppSessID(id: string)
      modifies this`appSessID
      ensures appSessID == id
    {
      appSessID := id;
    }

    method SetInfluenceID(id: string)
      modifies this`influID
      ensures influID == id
    {
      influID := id;
    }

    method SetNotificationURI(uri: string)
      modifies this`notificationURI
      ensures notificationURI == uri
    {
      notificationURI := uri;
    }

    function GetStoreLoc(): bool
      reads this
    {
      storeLoc
    }

    function GetTiSub(): TrafficInfluSub
      reads this
    {
      tiSub
    }
  }
}
