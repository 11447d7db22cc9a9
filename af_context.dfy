/**
 * The per-AF context (internal/context/af_context.go): two counters that hand
 * out decimal identifiers, and the subscription and PFD transaction maps.
 */
module AfContexts {
  import opened Common
  import opened Models
  import opened AfPfdTransactions
  import opened AfSubscriptions

  class AfContext {
    /** The AF identifier; set once at creation. */
    const afID: string
    var numSubscID: nat
    var numTransID: nat
    var subsc: map<string, AfSubscription>
    var pfdTrans: map<string, AfPfdTransaction>

    /**
     * Every entry is stored under its own identifier, and every identifier in
     * use was drawn from the matching counter (so it is at most the counter).
     */
    ghost predicate Valid()
      reads this
    {
      (forall id :: id in subsc ==> subsc[id].subscID == id && Issued(id, numSubscID)) &&
      (forall id :: id in pfdTrans ==> pfdTrans[id].transID == id && Issued(id, numTransID))
    }

    /** The context NefContext.NewAfCtx allocates: counters at zero, no entries. */
    constructor (afID: string)
      ensures this.afID == afID
      ensures numSubscID == 0 && numTransID == 0
      ensures subsc == map[] && pfdTrans == map[]
      ensures Valid()
    {
      this.afID := afID;
      numSubscID := 0;
      numTransID := 0;
      subsc := map[];
      pfdTrans := map[];
    }

    function GetAfID(): string
    {
      afID
    }

    // -------------------------------------------------------------------------
    // Subscriptions
    // -------------------------------------------------------------------------

    /**
     * newSubsc: draws the next subscription identifier and stamps the given
     * correlation counter; the record is not inserted.
     */
    method NewSubsc(numCorreID: nat) returns (s: AfSubscription)
      requires Valid()
      modifies this`numSubscID
      ensures Valid()
      ensures numSubscID == old(numSubscID) + 1
      ensures fresh(s)
      ensures s.subscID == NatToString(numSubscID) && s.notifCorreID == NatToString(numCorreID)
      ensures s.appSessID == "" && s.influID == "" && s.notificationURI == "" && !s.storeLoc
      ensures forall id :: Issued(id, old(numSubscID)) ==> id != s.subscID
      ensures s.subscID !in subsc
    {
      numSubscID := numSubscID + 1;
      s := new AfSubscription(NatToString(numSubscID), NatToString(numCorreID));
      forall id | Issued(id, old(numSubscID)) ensures id != s.subscID {
        NextIdIsFresh(id, old(numSubscID));
      }
    }

    method AddSubsc(s: AfSubscription)
      modifies this`subsc
      ensures subsc == old(subsc)[s.subscID := s]
      ensures GetSubsc(s.subscID) == s
      ensures old(Valid()) && Issued(s.subscID, numSubscID) ==> Valid()
    {
      subsc := subsc[s.subscID := s];
    }

    function GetSubsc(subscID: string): AfSubscription?
      reads this
    {
      if subscID in subsc then subsc[subscID] else null
    }

    function GetAllSubsc(): map<string, AfSubscription>
      reads this
    {
      subsc
    }

    method DeleteSubsc(subscID: string)
      modifies this`subsc
      ensures subsc == old(subsc) - {subscID}
      ensures GetSubsc(subscID) == null
      ensures old(Valid()) ==> Valid()
    {
      subsc := subsc - {subscID};
    }

    // -------------------------------------------------------------------------
    // PFD transactions
    // -------------------------------------------------------------------------

    /**
     * newPfdTrans: draws the next transaction identifier; the transaction starts
     * with no application and is not inserted.
     */
    method NewPfdTrans() returns (t: AfPfdTransaction)
      requires Valid()
      modifies this`numTransID
      ensures Valid()
      ensures numTransID == old(numTransID) + 1
      ensures fresh(t)
      ensures t.transID == NatToString(numTransID) && t.externalAppIDs == {}
      ensures forall id :: Issued(id, old(numTransID)) ==> id != t.transID
      ensures t.transID !in pfdTrans
    {
      numTransID := numTransID + 1;
      t := new AfPfdTransaction(NatToString(numTransID));
      forall id | Issued(id, old(numTransID)) ensures id != t.transID {
        NextIdIsFresh(id, old(numTransID));
      }
    }

    method AddPfdTrans(t: AfPfdTransaction)
      modifies this`pfdTrans
      ensures pfdTrans == old(pfdTrans)[t.transID := t]
      ensures GetPfdTrans(t.transID) == t
      ensures old(Valid()) && Issued(t.transID, numTransID) ==> Valid()
    {
      pfdTrans := pfdTrans[t.transID := t];
    }

    function GetPfdTrans(transID: string): AfPfdTransaction?
      reads this
    {
      if transID in pfdTrans then pfdTrans[transID] else null
    }

    /** Every stored transaction exactly once, in map order: `order` lists their identifiers. */
    method GetAllPfdTrans() returns (ts: seq<AfPfdTransaction>, ghost order: seq<string>)
      requires Valid()
      ensures IsEnumeration(order, pfdTrans.Keys) && |ts| == |order|
      ensures forall i :: 0 <= i < |ts| ==> order[i] in pfdTrans && ts[i] == pfdTrans[order[i]] && ts[i].transID == order[i]
    {
      ts, order := [], [];
      var rest := pfdTrans.Keys;
      while rest != {}
        invariant rest <= pfdTrans.Keys && |ts| == |order|
        invariant forall i :: 0 <= i < |ts| ==> order[i] in pfdTrans && ts[i] == pfdTrans[order[i]]
        invariant forall i, j :: 0 <= i < j < |order| ==> order[i] != order[j]
        invariant forall id :: id in order <==> id in pfdTrans && id !in rest
        decreases |rest|
      {
        var id :| id in rest;
        ts, order := ts + [pfdTrans[id]], order + [id];
        rest := rest - {id};
      }
    }

    method DeletePfdTrans(transID: string)
      modifies this`pfdTrans
      ensures pfdTrans == old(pfdTrans) - {transID}
      ensures GetPfdTrans(transID) == null
      ensures old(Valid()) ==> Valid()
    {
      pfdTrans := pfdTrans - {transID};
    }

    /** Some stored transaction of this AF lists the application. */
    ghost predicate HasApp(appID: string)
      reads this, pfdTrans.Values
    {
      exists id :: id in pfdTrans && appID in pfdTrans[id].externalAppIDs
    }

    /** The transaction (if any) that lists the application, found by a map-order scan. */
    method IsAppIDExisted(appID: string) returns (found: bool, transID: string)
      requires Valid()
      ensures found <==> HasApp(appID)
      ensures found ==> transID in pfdTrans && appID in pfdTrans[transID].externalAppIDs
      ensures !found ==> transID == ""
    {
      var rest := pfdTrans.Keys;
      while rest != {}
        invariant rest <= pfdTrans.Keys
        invariant forall id :: id in pfdTrans.Keys - rest ==> appID !in pfdTrans[id].externalAppIDs
        decreases |rest|
      {
        var id :| id in rest;
        if pfdTrans[id].IsAppIDExisted(appID) {
          return true, pfdTrans[id].GetTransID();
        }
        rest := rest - {id};
      }
      return false, "";
    }
  }
}
